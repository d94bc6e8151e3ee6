/** The sliding window sender: a fill loop, an ACK listener and a retransmit sweep that share
    one state, as steps between awaits. */
module SlidingWindow {
  import opened Finite
  import opened Sorting

  const TIMEOUT_SECONDS := 3.0
  const MAX_RETRIES := 5

  /** An `UnackedChunk`: it outlives its entry in the window while a sweep holds it. */
  datatype Tracked = Tracked(retries: nat, timestamp: real)

  /** Where `send_all` is: before its first loop test, inside `_send_chunk`, waiting for
      `_done`, or returned (`midSend` when a failing send raised out of the fill loop). */
  datatype Phase = Testing | Sending | Waiting | Returned(midSend: bool)

  datatype Done = NotDone | ByAcks | ByLoss

  datatype State = State(
    window: int,
    total: nat,
    sendIdx: nat,
    phase: Phase,
    unacked: set<int>,
    acked: set<int>,
    tracked: map<int, Tracked>,  // every chunk sent so far
    timedOut: seq<int>,          // what the running sweep still has to visit
    done: Done,
    frames: multiset<int>)       // data frames handed to the connection, by chunk index

  datatype Step =
    | Fill(now: real)
    | SendRaises
    | Ack(index: int)
    | ConnectionLost
    | Collect(now: real)
    | Resend(now: real)
    | Wake

  function Init(window: int, total: nat): State {
    State(window, total, 0, if total == 0 then Returned(false) else Testing, {}, {}, map[], [], NotDone, multiset{})
  }

  predicate Listening(s: State) {
    !s.phase.Returned? && s.done != ByLoss && |s.acked| < s.total
  }

  function AfterFill(s: State, now: real): State {
    var next := if s.phase == Sending then s.sendIdx + 1 else s.sendIdx;
    if next < s.total && |s.unacked| < s.window then
      s.(sendIdx := next, phase := Sending, unacked := s.unacked + {next},
         tracked := s.tracked[next := Tracked(0, now)], frames := s.frames + multiset{next})
    else s.(sendIdx := next, phase := Waiting)
  }

  function AfterAck(s: State, index: int): State {
    var acked := s.acked + {index};
    s.(unacked := s.unacked - {index}, acked := acked,
       done := if |acked| >= s.total then ByAcks else s.done)
  }

  predicate TimedOut(s: State, id: int, now: real) {
    id in s.unacked && id in s.tracked && now - s.tracked[id].timestamp > TIMEOUT_SECONDS
  }

  function AfterResend(s: State, now: real): State
    requires s.timedOut != []
  {
    var id := s.timedOut[0];
    var rest := s.(timedOut := s.timedOut[1..]);
    if id !in s.tracked || s.tracked[id].retries >= MAX_RETRIES then rest
    else rest.(tracked := s.tracked[id := Tracked(s.tracked[id].retries + 1, now)], frames := s.frames + multiset{id})
  }

  /** One atomic step; a step that is not enabled changes nothing. */
  function Next(s: State, step: Step): State {
    if s.phase.Returned? then s
    else
      match step
      case Fill(now) => if s.phase == Testing || s.phase == Sending then AfterFill(s, now) else s
      case SendRaises => if s.phase == Sending then s.(phase := Returned(true)) else s
      case Ack(index) => if Listening(s) then AfterAck(s, index) else s
      case ConnectionLost => if Listening(s) then s.(done := ByLoss) else s
      // Sending order is the window's insertion order.
      case Collect(now) =>
        if s.timedOut == [] then s.(timedOut := Filter(id => TimedOut(s, id, now), Indices(s.total))) else s
      case Resend(now) => if s.timedOut != [] then AfterResend(s, now) else s
      case Wake => if s.phase == Waiting && s.done != NotDone then s.(phase := Returned(false)) else s
  }

  function Run(s: State, steps: seq<Step>): State
    decreases |steps|
  {
    if steps == [] then s else Run(Next(s, steps[0]), steps[1..])
  }

  /** The peer acknowledges only chunks it was sent. */
  ghost predicate Honest(s: State, steps: seq<Step>)
    decreases |steps|
  {
    steps == [] ||
    ((steps[0].Ack? ==> steps[0].index in s.frames) && Honest(Next(s, steps[0]), steps[1..]))
  }

  lemma RunCons(s: State, step: Step, rest: seq<Step>)
    ensures Run(s, [step] + rest) == Run(Next(s, step), rest)
    ensures Honest(s, [step] + rest) <==> (step.Ack? ==> step.index in s.frames) && Honest(Next(s, step), rest)
  {
    assert ([step] + rest)[1..] == rest;
  }

  // ---- The invariant of every run ----

  /** How many chunks have entered the window. */
  function Entered(s: State): nat {
    if s.phase == Sending || s.phase == Returned(true) then s.sendIdx + 1 else s.sendIdx
  }

  ghost predicate SentIsPrefix(s: State) {
    Entered(s) <= s.total && s.tracked.Keys == Range(Entered(s))
  }

  ghost predicate WindowSplitsSent(s: State) {
    && Splits(s.tracked.Keys, s.unacked, s.acked)
    && |s.unacked| <= (if s.window > 0 then s.window else 0)
  }

  ghost predicate FramesAreCounted(s: State) {
    && (forall id :: id in s.tracked ==> s.tracked[id].retries <= MAX_RETRIES)
    && (forall id :: s.frames[id] == if id in s.tracked then 1 + s.tracked[id].retries else 0)
    && (forall id :: id in s.timedOut ==> id in s.tracked)
  }

  ghost predicate DoneMeansAllAcked(s: State) {
    && (s.done == ByAcks ==> s.acked == Range(s.total) && s.unacked == {})
    && (s.done == NotDone && s.total > 0 ==> |s.acked| < s.total)
  }

  ghost predicate Inv(s: State) {
    var keeps := SentIsPrefix(s) && WindowSplitsSent(s) && FramesAreCounted(s) && DoneMeansAllAcked(s);
    keeps
  }

  lemma FillKeepsPrefix(s: State, now: real)
    requires SentIsPrefix(s) && (s.phase == Testing || s.phase == Sending)
    ensures SentIsPrefix(AfterFill(s, now))
  {
  }

  lemma FillKeepsSplit(s: State, now: real)
    requires SentIsPrefix(s) && WindowSplitsSent(s) && (s.phase == Testing || s.phase == Sending)
    ensures WindowSplitsSent(AfterFill(s, now))
  {
    if AfterFill(s, now).phase == Sending {
      InRange(Entered(s), Entered(s));
    }
  }

  lemma FillKeepsFrames(s: State, now: real)
    requires SentIsPrefix(s) && FramesAreCounted(s) && (s.phase == Testing || s.phase == Sending)
    ensures FramesAreCounted(AfterFill(s, now))
  {
    if AfterFill(s, now).phase == Sending {
      InRange(Entered(s), Entered(s));
    }
  }

  lemma FillKeepsInv(s: State, now: real)
    requires Inv(s) && (s.phase == Testing || s.phase == Sending)
    ensures Inv(AfterFill(s, now))
  {
    FillKeepsPrefix(s, now);
    FillKeepsSplit(s, now);
    FillKeepsFrames(s, now);
    if AfterFill(s, now).phase == Sending {
      InRange(Entered(s), Entered(s));
      InRange(s.total, Entered(s));
    }
  }

  lemma AckKeepsInv(s: State, index: int)
    requires Inv(s) && Listening(s) && index in s.frames
    ensures Inv(AfterAck(s, index))
  {
    var t := AfterAck(s, index);
    assert WindowSplitsSent(t) by {
      assert index in s.tracked;
      assert |t.unacked| <= |s.unacked|;
    }
    assert SentIsPrefix(t) && FramesAreCounted(t);
    if |t.acked| >= s.total {
      AllAckedIsEverything(t);
    }
  }

  /** As many acknowledged chunks as there are chunks means all of them. */
  lemma AllAckedIsEverything(s: State)
    requires SentIsPrefix(s) && WindowSplitsSent(s) && |s.acked| >= s.total
    ensures s.acked == Range(s.total) && s.unacked == {}
  {
    RangeSize(s.total);
    RangeGrows(Entered(s), s.total);
    SplitOfSet(s.tracked.Keys, s.unacked, s.acked);
    SubsetOfSameSize(s.acked, Range(s.total));
  }

  lemma ResendKeepsInv(s: State, now: real)
    requires Inv(s) && s.timedOut != []
    ensures Inv(AfterResend(s, now))
  {
  }

  lemma CollectKeepsInv(s: State, now: real)
    requires Inv(s)
    ensures Inv(s.(timedOut := Filter(id => TimedOut(s, id, now), Indices(s.total))))
  {
    FilterMembers(id => TimedOut(s, id, now), Indices(s.total));
  }

  lemma NextKeepsInv(s: State, step: Step)
    requires Inv(s) && (step.Ack? ==> step.index in s.frames)
    ensures Inv(Next(s, step))
  {
    if !s.phase.Returned? {
      match step {
        case Fill(now) => if s.phase == Testing || s.phase == Sending { FillKeepsInv(s, now); }
        case SendRaises =>
        case Ack(index) => if Listening(s) { AckKeepsInv(s, index); }
        case ConnectionLost =>
        case Collect(now) => CollectKeepsInv(s, now);
        case Resend(now) => if s.timedOut != [] { ResendKeepsInv(s, now); }
        case Wake =>
      }
    }
  }

  lemma InitHasInv(window: int, total: nat)
    ensures Inv(Init(window, total))
  {
  }

  lemma {:induction false} RunKeepsInv(s: State, steps: seq<Step>)
    requires Inv(s) && Honest(s, steps)
    ensures Inv(Run(s, steps))
    decreases |steps|
  {
    if steps != [] {
      NextKeepsInv(s, steps[0]);
      RunKeepsInv(Next(s, steps[0]), steps[1..]);
    }
  }

  /** Every interleaving with an honest peer: the window is respected, the chunks sent so far
      split into unacked and acked, and an ACK sets `_done` only when all are acknowledged. */
  lemma EveryHonestRunIsSafe(window: int, total: nat, steps: seq<Step>)
    requires Honest(Init(window, total), steps)
    ensures var s := Run(Init(window, total), steps);
            && |s.unacked| <= (if window > 0 then window else 0) && Entered(s) <= total
            && s.unacked !! s.acked && s.unacked + s.acked == Range(Entered(s))
            && (s.done == ByAcks ==> s.acked == Range(total) && s.unacked == {})
  {
    InitHasInv(window, total);
    RunKeepsInv(Init(window, total), steps);
    RunKeepsParameters(Init(window, total), steps);
    var s := Run(Init(window, total), steps);
    SplitOfSet(s.tracked.Keys, s.unacked, s.acked);
  }

  lemma {:induction false} RunKeepsParameters(s: State, steps: seq<Step>)
    ensures Run(s, steps).window == s.window && Run(s, steps).total == s.total
    decreases |steps|
  {
    if steps != [] {
      RunKeepsParameters(Next(s, steps[0]), steps[1..]);
    }
  }

  // ---- Retransmission bound ----

  /** No chunk goes out more than 1 + MAX_RETRIES times, whatever the interleaving, so a run
      sends at most six data frames per chunk. */
  lemma TransmissionsAreBounded(window: int, total: nat, steps: seq<Step>)
    requires Honest(Init(window, total), steps)
    ensures var s := Run(Init(window, total), steps);
            && (forall id :: s.frames[id] <= 1 + MAX_RETRIES)
            && |s.frames| <= 6 * total
  {
    InitHasInv(window, total);
    RunKeepsInv(Init(window, total), steps);
    RunKeepsParameters(Init(window, total), steps);
    var s := Run(Init(window, total), steps);
    forall id | id in s.frames
      ensures id in Indices(total) && s.frames[id] <= 6
    {
      assert id in s.tracked;
      InRange(Entered(s), id);
      assert Indices(total)[id] == id;
    }
    BoundedMultiplicity(s.frames, Indices(total), 6);
  }

  // ---- Progress when the window covers the file ----

  /** With room for every chunk the fill loop can only end by having sent them all. */
  ghost predicate FillsCompletely(s: State) {
    s.total <= s.window && (s.phase == Waiting ==> s.sendIdx == s.total)
  }

  lemma NextFillsCompletely(s: State, step: Step)
    requires Inv(s) && FillsCompletely(s)
    ensures FillsCompletely(Next(s, step))
  {
    UnackedAreSent(s);
  }

  lemma UnackedAreSent(s: State)
    requires SentIsPrefix(s) && WindowSplitsSent(s)
    ensures |s.unacked| <= Entered(s) && |s.acked| <= Entered(s)
    ensures s.acked == {} ==> |s.unacked| == Entered(s)
  {
    RangeSize(Entered(s));
    SplitOfSet(s.tracked.Keys, s.unacked, s.acked);
  }

  lemma {:induction false} RunFillsCompletely(s: State, steps: seq<Step>)
    requires Inv(s) && FillsCompletely(s) && Honest(s, steps)
    ensures FillsCompletely(Run(s, steps))
    decreases |steps|
  {
    if steps != [] {
      NextKeepsInv(s, steps[0]);
      NextFillsCompletely(s, steps[0]);
      RunFillsCompletely(Next(s, steps[0]), steps[1..]);
    }
  }

  /** What is left to do: chunks to send, then chunks to acknowledge. */
  ghost function Remaining(s: State): int {
    s.total - |s.acked|
  }

  /** A first ACK of an outstanding chunk lowers the measure by one, and the last one sets
      `_done`. */
  lemma FreshAckLowersRemaining(s: State, index: int)
    requires Inv(s) && index in s.unacked && Listening(s)
    ensures Remaining(Next(s, Ack(index))) == Remaining(s) - 1
    ensures Remaining(Next(s, Ack(index))) == 0 <==> Next(s, Ack(index)).done == ByAcks
  {
    assert index !in s.acked;
  }

  ghost function Work(s: State): int {
    2 * s.total - s.sendIdx - |s.acked| + (match s.phase case Testing => 2 case Sending => 1 case _ => 0)
  }

  ghost predicate CanComplete(s: State) {
    Inv(s) && FillsCompletely(s) && s.done == NotDone && !s.phase.Returned? && s.total > 0
  }

  lemma UsefulStep(s: State) returns (step: Step)
    requires CanComplete(s)
    ensures step.Fill? || (step.Ack? && step.index in s.frames)
    ensures Next(s, step).done == ByAcks || (CanComplete(Next(s, step)) && 0 <= Work(Next(s, step)) < Work(s))
  {
    step := Fill(0.0);
    if s.phase == Waiting {
      SomethingIsUnacked(s);
      var index := Pick(s.unacked);
      assert index in s.tracked && s.frames[index] > 0;
      step := Ack(index);
      FreshAckLowersRemaining(s, index);
    }
    NextKeepsInv(s, step);
    NextFillsCompletely(s, step);
    UnackedAreSent(Next(s, step));
  }

  /** From any state of an honest run that has neither lost its peer nor returned, if the
      window covers the file, some honest continuation sets `_done`. */
  lemma {:induction false} CoveredFileCompletes(s: State) returns (steps: seq<Step>)
    requires CanComplete(s)
    ensures Honest(s, steps) && Run(s, steps).done == ByAcks
    ensures forall i :: 0 <= i < |steps| ==> steps[i].Fill? || steps[i].Ack?
    decreases Work(s)
  {
    var step := UsefulStep(s);
    var rest := [];
    if Next(s, step).done != ByAcks {
      rest := CoveredFileCompletes(Next(s, step));
    }
    RunCons(s, step, rest);
    steps := [step] + rest;
  }

  /** A step that gets the transfer on: filling, or the first ACK of an outstanding chunk. */
  predicate Useful(s: State, step: Step) {
    match step
    case Fill(_) => s.phase == Testing || s.phase == Sending
    case Ack(index) => index in s.unacked
    case _ => false
  }

  function UsefulSteps(s: State, steps: seq<Step>): nat
    decreases |steps|
  {
    if steps == [] then 0
    else (if Useful(s, steps[0]) then 1 else 0) + UsefulSteps(Next(s, steps[0]), steps[1..])
  }

  /** The step finishes the transfer, or keeps it able to finish with no more work than before,
      and with less if it is useful. */
  ghost predicate KeepsProgress(s: State, step: Step) {
    var t := Next(s, step);
    t.done == ByAcks || (CanComplete(t) && 0 <= Work(t) && Work(t) + (if Useful(s, step) then 1 else 0) <= Work(s))
  }

  lemma FreshAckKeepsProgress(s: State, index: int)
    requires CanComplete(s) && index in s.unacked
    ensures KeepsProgress(s, Ack(index))
  {
    assert index in s.tracked && s.frames[index] > 0;
    NextKeepsInv(s, Ack(index));
    NextFillsCompletely(s, Ack(index));
    UnackedAreSent(Next(s, Ack(index)));
    FreshAckLowersRemaining(s, index);
  }

  lemma RepeatedAckChangesNothing(s: State, index: int)
    requires Inv(s) && index in s.frames && index !in s.unacked && s.done == NotDone && s.total > 0
    ensures Next(s, Ack(index)) == s
  {
    assert index in s.tracked && index in s.acked;
    assert s.acked + {index} == s.acked && s.unacked - {index} == s.unacked;
  }

  lemma FillKeepsProgress(s: State, now: real)
    requires CanComplete(s)
    ensures KeepsProgress(s, Fill(now))
  {
    NextKeepsInv(s, Fill(now));
    NextFillsCompletely(s, Fill(now));
    UnackedAreSent(Next(s, Fill(now)));
  }

  lemma SweepOnlyRetries(s: State, step: Step)
    requires (step.Collect? || step.Resend? || step.Wake?) && s.done == NotDone
    ensures var t := Next(s, step);
            && t.window == s.window && t.total == s.total && t.sendIdx == s.sendIdx && t.phase == s.phase
            && t.acked == s.acked && t.done == s.done
  {
  }

  lemma SweepKeepsProgress(s: State, step: Step)
    requires CanComplete(s) && (step.Collect? || step.Resend? || step.Wake?)
    ensures KeepsProgress(s, step)
  {
    NextKeepsInv(s, step);
    SweepOnlyRetries(s, step);
    UnackedAreSent(s);
  }

  /** No step of a connected, honest transfer loses progress, and each useful one adds to it. */
  lemma StepsKeepProgress(s: State, step: Step)
    requires CanComplete(s) && (step.Ack? ==> step.index in s.frames) && !step.ConnectionLost? && !step.SendRaises?
    ensures KeepsProgress(s, step)
  {
    match step
    case Ack(index) =>
      if index in s.unacked {
        FreshAckKeepsProgress(s, index);
      } else {
        RepeatedAckChangesNothing(s, index);
        UnackedAreSent(s);
      }
    case Fill(now) => FillKeepsProgress(s, now);
    case _ => SweepKeepsProgress(s, step);
  }

  lemma {:induction false} DoneStaysDone(s: State, steps: seq<Step>)
    requires s.done == ByAcks && |s.acked| >= s.total
    ensures Run(s, steps).done == ByAcks
    decreases |steps|
  {
    if steps != [] {
      DoneStaysDone(Next(s, steps[0]), steps[1..]);
    }
  }

  /** If the window covers the file, every honest and connected run, in whatever order its steps
      come, has finished once it has made more useful steps than `Work` allows. */
  lemma {:induction false} UsefulStepsFinish(s: State, steps: seq<Step>)
    requires CanComplete(s) && Honest(s, steps)
    requires forall i :: 0 <= i < |steps| ==> !steps[i].ConnectionLost? && !steps[i].SendRaises?
    ensures 0 <= Work(s)
    ensures Run(s, steps).done == ByAcks || UsefulSteps(s, steps) <= Work(s)
    decreases |steps|
  {
    UnackedAreSent(s);
    if steps != [] {
      var t := Next(s, steps[0]);
      StepsKeepProgress(s, steps[0]);
      if t.done == ByAcks {
        NextKeepsInv(s, steps[0]);
        AckedCount(t);
        DoneStaysDone(t, steps[1..]);
      } else {
        UsefulStepsFinish(t, steps[1..]);
      }
    }
  }

  lemma AckedCount(s: State)
    requires Inv(s) && s.done == ByAcks
    ensures |s.acked| == s.total
  {
    RangeSize(s.total);
  }

  lemma SomethingIsUnacked(s: State)
    requires Inv(s) && s.phase == Waiting && s.sendIdx == s.total && s.done == NotDone && s.total > 0
    ensures s.unacked != {} && Listening(s)
  {
    RangeSize(s.total);
    SplitOfSet(s.tracked.Keys, s.unacked, s.acked);
  }

  // ---- The stub slide step ----

  /** The fill loop has ended with chunks unsent; nothing else ever advances `_send_idx`. */
  ghost predicate Stalled(s: State) {
    var stalled := Inv(s) && s.phase == Waiting && s.sendIdx < s.total && s.done == NotDone;
    stalled
  }

  lemma WaitingStaysWaiting(s: State, step: Step)
    requires s.phase == Waiting && s.done == NotDone && step != ConnectionLost
    ensures var t := Next(s, step);
            t.phase == Waiting && t.sendIdx == s.sendIdx && t.total == s.total && t.done != ByLoss
  {
  }

  lemma DoneMeansAllSent(s: State)
    requires Inv(s) && s.done == ByAcks
    ensures Entered(s) == s.total
  {
    UnackedAreSent(s);
    RangeSize(s.total);
  }

  lemma StalledStaysStalled(s: State, step: Step)
    requires Stalled(s) && step != ConnectionLost && (step.Ack? ==> step.index in s.frames)
    ensures Stalled(Next(s, step)) && Next(s, step).sendIdx == s.sendIdx
  {
    NextKeepsInv(s, step);
    WaitingStaysWaiting(s, step);
    if Next(s, step).done == ByAcks {
      DoneMeansAllSent(Next(s, step));
    }
  }

  /** Once stalled, no honest run that keeps its connection ever sets `_done` or returns. */
  lemma {:induction false} StalledForever(s: State, steps: seq<Step>)
    requires Stalled(s) && Honest(s, steps)
    requires forall i :: 0 <= i < |steps| ==> steps[i] != ConnectionLost
    ensures Stalled(Run(s, steps)) && Run(s, steps).sendIdx == s.sendIdx
    decreases |steps|
  {
    if steps != [] {
      StalledStaysStalled(s, steps[0]);
      StalledForever(Next(s, steps[0]), steps[1..]);
    }
  }

  /** The sender after n fill steps against a silent peer: n chunks out, none acknowledged. */
  ghost predicate FilledInSilence(s: State, window: int, total: nat, n: nat) {
    var filled :=
      && Inv(s) && s.window == window && s.total == total
      && s.acked == {} && s.done == NotDone && Entered(s) == n
      && s.phase == if n == 0 then Testing else Sending;
    filled
  }

  lemma SilentFill(s: State, window: int, total: nat, n: nat)
    requires FilledInSilence(s, window, total, n) && total > 0
    ensures n < total && n < window ==> FilledInSilence(Next(s, Fill(0.0)), window, total, n + 1)
    ensures n < total && n == (if window > 0 then window else 0) ==> Stalled(Next(s, Fill(0.0)))
  {
    UnackedAreSent(s);
    NextKeepsInv(s, Fill(0.0));
  }

  /** An honest run that ends in a stall. */
  ghost predicate Stalls(s: State, steps: seq<Step>) {
    var stalls := Honest(s, steps) && Stalled(Run(s, steps));
    stalls
  }

  /** Filling on until the window is full leaves the fill loop with chunks unsent. */
  lemma {:induction false} SilentPeerStalls(s: State, window: int, total: nat, n: nat) returns (steps: seq<Step>)
    requires FilledInSilence(s, window, total, n) && total > 0 && total > window
    requires n <= (if window > 0 then window else 0)
    ensures Stalls(s, steps)
    decreases total - n
  {
    SilentFill(s, window, total, n);
    steps := [];
    if n < window {
      steps := SilentPeerStalls(Next(s, Fill(0.0)), window, total, n + 1);
    }
    RunCons(s, Fill(0.0), steps);
    steps := [Fill(0.0)] + steps;
  }

  lemma LargeFileStalls(window: int, total: nat) returns (steps: seq<Step>)
    requires total > 0 && total > window
    ensures Stalls(Init(window, total), steps)
  {
    InitHasInv(window, total);
    steps := SilentPeerStalls(Init(window, total), window, total, 0);
  }

  lemma CoveredFileNeverStalls(window: int, total: nat, steps: seq<Step>)
    requires total <= window && Honest(Init(window, total), steps)
    ensures !Stalled(Run(Init(window, total), steps))
  {
    InitHasInv(window, total);
    RunFillsCompletely(Init(window, total), steps);
  }

  /** An honest run can stall exactly when there are more chunks than window slots. */
  lemma CanStallIffFileExceedsWindow(window: int, total: nat)
    requires total > 0
    ensures (exists steps :: Stalls(Init(window, total), steps)) <==> total > window
  {
    if total > window {
      var steps := LargeFileStalls(window, total);
      assert Stalls(Init(window, total), steps);
    } else if steps :| Stalls(Init(window, total), steps) {
      CoveredFileNeverStalls(window, total, steps);
    }
  }

  // ---- Which files can be finished at all ----

  /** An honest, connected run that sets `_done`. */
  ghost predicate Finishes(s: State, steps: seq<Step>) {
    var finishes :=
      && Honest(s, steps) && (forall i :: 0 <= i < |steps| ==> steps[i] != ConnectionLost)
      && Run(s, steps).done == ByAcks;
    finishes
  }

  /** n chunks were sent one at a time, each acknowledged before the next. */
  ghost predicate InLockstep(s: State, n: nat) {
    var holds :=
      && s.window > 0 && n < s.total && s.done == NotDone && s.unacked == {}
      && s.acked == Range(n) && Entered(s) == n && s.phase == (if n == 0 then Testing else Sending);
    holds
  }

  lemma LockstepContinues(s: State, n: nat)
    requires InLockstep(s, n)
    ensures var t := Next(s, Fill(0.0));
            && n in t.frames
            && var u := Next(t, Ack(n));
            if n + 1 == s.total then u.done == ByAcks else InLockstep(u, n + 1) && u.total == s.total
  {
    RangeSize(n);
    RangeSize(n + 1);
  }

  lemma {:induction false} LockstepFinishes(s: State, n: nat) returns (steps: seq<Step>)
    requires InLockstep(s, n)
    ensures Finishes(s, steps)
    decreases s.total - n
  {
    LockstepContinues(s, n);
    var t := Next(s, Fill(0.0));
    steps := [];
    if n + 1 < s.total {
      steps := LockstepFinishes(Next(t, Ack(n)), n + 1);
    }
    RunCons(t, Ack(n), steps);
    RunCons(s, Fill(0.0), [Ack(n)] + steps);
    steps := [Fill(0.0)] + ([Ack(n)] + steps);
  }

  /** Without a window nothing is sent. */
  ghost predicate NothingSent(s: State) {
    var holds :=
      && s.window <= 0 && s.total > 0 && s.sendIdx == 0 && s.phase != Sending
      && s.unacked == {} && s.acked == {} && s.tracked == map[] && s.frames == multiset{} && s.done != ByAcks;
    holds
  }

  lemma {:induction false} NothingSentEver(s: State, steps: seq<Step>)
    requires NothingSent(s) && Honest(s, steps)
    ensures NothingSent(Run(s, steps))
    decreases |steps|
  {
    if steps != [] {
      assert NothingSent(Next(s, steps[0]));
      NothingSentEver(Next(s, steps[0]), steps[1..]);
    }
  }

  /** A file can be finished, whatever its size, exactly when the window has room for a chunk:
      ACKs that arrive while the fill loop is still running let it go on. */
  lemma CanFinishIffWindowHasRoom(window: int, total: nat)
    requires total > 0
    ensures (exists steps :: Finishes(Init(window, total), steps)) <==> window > 0
  {
    if window > 0 {
      var steps := LockstepFinishes(Init(window, total), 0);
      assert Finishes(Init(window, total), steps);
    } else if steps :| Finishes(Init(window, total), steps) {
      NothingSentEver(Init(window, total), steps);
    }
  }

  // ---- Giving up ----

  /** No ACK, no loss, no failing send: however often the sweep runs and gives up, the transfer
      neither sets `_done` nor returns. */
  lemma {:induction false} GivingUpNeverEnds(s: State, steps: seq<Step>)
    requires s.done == NotDone && !s.phase.Returned?
    requires forall i :: 0 <= i < |steps| ==> !steps[i].Ack? && !steps[i].ConnectionLost? && !steps[i].SendRaises?
    ensures Run(s, steps).done == NotDone && !Run(s, steps).phase.Returned?
    decreases |steps|
  {
    if steps != [] {
      GivingUpNeverEnds(Next(s, steps[0]), steps[1..]);
    }
  }

  // ---- Any ACK index is accepted ----

  function Acks(indices: seq<int>): seq<Step> {
    if indices == [] then [] else [Ack(indices[0])] + Acks(indices[1..])
  }

  lemma BogusAckCounts(s: State, first: int)
    requires !s.phase.Returned? && s.done == NotDone && |s.acked| < s.total && first !in s.acked
    ensures var t := Next(s, Ack(first));
            && t.acked == s.acked + {first} && |t.acked| == |s.acked| + 1 && t.phase == s.phase && t.total == s.total
            && t.done == if |t.acked| == s.total then ByAcks else NotDone
  {
  }

  lemma HeadAndRest(list: seq<int>)
    requires list != [] && NoDup(list)
    ensures list[0] in list && NoDup(list[1..]) && SetOf(list) == {list[0]} + SetOf(list[1..])
    ensures forall b :: b in list[1..] ==> b in list && b != list[0]
    ensures list[1..] == [] ==> SetOf(list[1..]) == {}
  {
    assert list == [list[0]] + list[1..];
  }

  /** A peer that acknowledges indices it never saw ends the transfer with nothing delivered. */
  lemma {:induction false} BogusAcksFinish(s: State, bogus: seq<int>)
    requires !s.phase.Returned? && s.done == NotDone && |s.acked| < s.total
    requires NoDup(bogus) && |s.acked| + |bogus| == s.total
    requires forall b :: b in bogus ==> b !in s.acked
    ensures var t := Run(s, Acks(bogus));
            t.done == ByAcks && t.acked == s.acked + SetOf(bogus)
    decreases |bogus|
  {
    var h := Next(s, Ack(bogus[0]));
    HeadAndRest(bogus);
    BogusAckCounts(s, bogus[0]);
    RunCons(s, Ack(bogus[0]), Acks(bogus[1..]));
    Regroup(s.acked, bogus[0], SetOf(bogus[1..]), SetOf(bogus));
    if |bogus| == 1 {
      assert Run(h, Acks(bogus[1..])) == h;
      assert h.acked == h.acked + SetOf(bogus[1..]);
    } else {
      BogusAcksFinish(h, bogus[1..]);
    }
  }

  // ---- When "done" can be believed ----

  /** The chunk that this step acknowledges after it was sent, if any. */
  function TrueAck(s: State, step: Step): set<int> {
    if step.Ack? && Listening(s) && step.index in s.frames then {step.index} else {}
  }

  /** The chunks that are acknowledged in a run after they were sent. */
  function TrueAcks(s: State, steps: seq<Step>): set<int>
    decreases |steps|
  {
    if steps == [] then {} else TrueAck(s, steps[0]) + TrueAcks(Next(s, steps[0]), steps[1..])
  }

  /** Exactly the chunks sent so far have frames: the first and one for each retry. */
  ghost predicate FramesAreSent(s: State) {
    && Entered(s) <= s.total
    && (forall id :: id in s.tracked <==> 0 <= id < Entered(s))
    && (forall id :: s.frames[id] == if id in s.tracked then 1 + s.tracked[id].retries else 0)
  }

  /** The window holds what was sent and not acknowledged since. */
  ghost predicate WindowIsUnheard(s: State, heard: set<int>) {
    && (forall id :: id in s.unacked <==> 0 <= id < Entered(s) && id !in heard)
    && (forall id :: id in heard ==> 0 <= id < Entered(s))
  }

  ghost predicate AcksAreCounted(s: State, heard: set<int>) {
    heard <= s.acked && |s.acked| <= s.total && (s.done == ByAcks ==> |s.acked| == s.total)
  }

  /** `heard` are the chunks acknowledged after they were sent, whatever else the peer says. */
  ghost predicate Heard(s: State, heard: set<int>) {
    var holds := FramesAreSent(s) && WindowIsUnheard(s, heard) && AcksAreCounted(s, heard);
    holds
  }

  lemma EnteringKeepsHeard(s: State, heard: set<int>, now: real)
    requires Heard(s, heard) && Entered(s) < s.total
    ensures var next := Entered(s);
            Heard(s.(sendIdx := next, phase := Sending, unacked := s.unacked + {next},
                     tracked := s.tracked[next := Tracked(0, now)], frames := s.frames + multiset{next}), heard)
  {
    assert Entered(s) !in heard;
  }

  lemma FillKeepsHeard(s: State, now: real, heard: set<int>)
    requires Heard(s, heard) && (s.phase == Testing || s.phase == Sending)
    ensures Heard(AfterFill(s, now), heard)
  {
    if AfterFill(s, now).phase == Sending {
      EnteringKeepsHeard(s, heard, now);
    }
  }

  lemma AckKeepsHeard(s: State, index: int, heard: set<int>)
    requires Heard(s, heard) && Listening(s)
    ensures Heard(AfterAck(s, index), heard + (if index in s.frames then {index} else {}))
  {
  }

  lemma ResendKeepsHeard(s: State, now: real, heard: set<int>)
    requires Heard(s, heard) && s.timedOut != []
    ensures Heard(AfterResend(s, now), heard)
  {
  }

  lemma NextKeepsHeard(s: State, step: Step, heard: set<int>)
    requires Heard(s, heard)
    ensures Heard(Next(s, step), heard + TrueAck(s, step)) && Next(s, step).total == s.total
  {
    if step.Ack? && Listening(s) {
      AckKeepsHeard(s, step.index, heard);
    } else {
      assert heard + TrueAck(s, step) == heard;
      OtherStepsKeepHeard(s, step, heard);
    }
  }

  lemma OtherStepsKeepHeard(s: State, step: Step, heard: set<int>)
    requires Heard(s, heard) && !(step.Ack? && Listening(s))
    ensures Heard(Next(s, step), heard)
  {
    if step.Fill? && (s.phase == Testing || s.phase == Sending) {
      FillKeepsHeard(s, step.now, heard);
    } else if step.Resend? && s.timedOut != [] {
      ResendKeepsHeard(s, step.now, heard);
    }
  }

  lemma {:induction false} RunKeepsHeard(s: State, steps: seq<Step>, heard: set<int>)
    requires Heard(s, heard)
    ensures Heard(Run(s, steps), heard + TrueAcks(s, steps)) && Run(s, steps).total == s.total
    decreases |steps|
  {
    if steps == [] {
      assert heard + {} == heard;
    } else {
      var t, now := Next(s, steps[0]), TrueAck(s, steps[0]);
      NextKeepsHeard(s, steps[0], heard);
      RunKeepsHeard(t, steps[1..], heard + now);
      assert heard + now + TrueAcks(t, steps[1..]) == heard + (now + TrueAcks(t, steps[1..]));
    }
  }

  lemma AllHeardIsEverything(s: State, heard: set<int>)
    requires Heard(s, heard)
    ensures s.acked == Range(s.total) && Entered(s) == s.total && s.unacked == {} <==> Range(s.total) <= heard
  {
    forall id
      ensures id in Range(s.total) <==> 0 <= id < s.total
    {
      InRange(s.total, id);
    }
    RangeSize(s.total);
    if Range(s.total) <= heard {
      SubsetOfSameSize(Range(s.total), s.acked);
      assert s.total > 0 ==> s.total - 1 in Range(s.total);
      assert forall id :: id !in s.unacked;
    }
  }

  /** Over every run, honest or not: once ACKs have set `_done`, all chunks were sent, all were
      acknowledged and none is outstanding if and only if each of them was acknowledged after it
      had been sent. */
  lemma DoneIsTrueIffEveryChunkWasHeard(window: int, total: nat, steps: seq<Step>)
    requires Run(Init(window, total), steps).done == ByAcks
    ensures var s := Run(Init(window, total), steps);
            s.acked == Range(total) && Entered(s) == total && s.unacked == {} <==>
            Range(total) <= TrueAcks(Init(window, total), steps)
  {
    var s := Run(Init(window, total), steps);
    var heard := {} + TrueAcks(Init(window, total), steps);
    RunKeepsHeard(Init(window, total), steps, {});
    assert heard == TrueAcks(Init(window, total), steps);
    AllHeardIsEverything(s, heard);
  }

  /** Two chunks, the second acknowledged before it is sent, up to the moment it is. */
  lemma EarlyAckCounts(s: State)
    requires s.window >= s.total == 2 && s.sendIdx == 0 && s.phase == Sending && s.done == NotDone
    requires s.unacked == {0} && s.acked == {} && s.frames == multiset{0}
    ensures var t := Next(Next(s, Ack(1)), Ack(0));
            t == s.(unacked := {}, acked := {0, 1}, done := ByAcks)
    ensures TrueAck(s, Ack(1)) == {} && TrueAck(Next(s, Ack(1)), Ack(0)) == {0}
  {
    assert Next(s, Ack(1)) == s.(acked := {1});
    assert {1} + {0} == {0, 1};
  }

  lemma TrueAcksCons(s: State, step: Step, rest: seq<Step>)
    ensures Run(s, [step] + rest) == Run(Next(s, step), rest)
    ensures TrueAcks(s, [step] + rest) == TrueAck(s, step) + TrueAcks(Next(s, step), rest)
  {
    assert ([step] + rest)[1..] == rest;
  }

  lemma RunOfTwo(s: State, a: Step, b: Step)
    ensures Run(s, [a, b]) == Next(Next(s, a), b)
    ensures TrueAcks(s, [a, b]) == TrueAck(s, a) + TrueAck(Next(s, a), b)
  {
    TrueAcksCons(s, a, [b]);
    TrueAcksCons(Next(s, a), b, []);
    assert [a] + [b] == [a, b] && [b] + [] == [b];
  }

  lemma RunOfFour(s: State, a: Step, b: Step, c: Step, d: Step)
    ensures var t := Next(Next(s, a), b);
            && Run(s, [a, b, c, d]) == Next(Next(t, c), d)
            && TrueAcks(s, [a, b, c, d]) ==
               TrueAck(s, a) + (TrueAck(Next(s, a), b) + (TrueAck(t, c) + TrueAck(Next(t, c), d)))
  {
    TrueAcksCons(s, a, [b, c, d]);
    TrueAcksCons(Next(s, a), b, [c, d]);
    RunOfTwo(Next(Next(s, a), b), c, d);
    assert [a] + [b, c, d] == [a, b, c, d] && [b] + [c, d] == [b, c, d];
  }

  lemma EarlyAckFirstFill(window: int, now: real)
    requires window >= 2
    ensures var s := Next(Init(window, 2), Fill(now));
            && s.window == window && s.total == 2 && s.sendIdx == 0 && s.phase == Sending && s.done == NotDone
            && s.unacked == {0} && s.acked == {} && s.frames == multiset{0}
  {
  }

  /** An ACK that comes before its chunk was sent counts: here `_done` is set when all indices
      were acknowledged, all chunks get sent, and chunk 1 is still outstanding. */
  lemma EarlyAckIsBelieved(window: int, now: real)
    requires window >= 2
    ensures var steps := [Fill(now), Ack(1), Ack(0), Fill(now)];
            var s := Run(Init(window, 2), steps);
            && s.done == ByAcks && s.acked == {0, 1} && Entered(s) == 2 && s.unacked == {1}
            && TrueAcks(Init(window, 2), steps) == {0}
  {
    var s0 := Init(window, 2);
    RunOfFour(s0, Fill(now), Ack(1), Ack(0), Fill(now));
    EarlyAckFirstFill(window, now);
    EarlyAckCounts(Next(s0, Fill(now)));
  }

  // ---- The sweep resends exactly what has timed out ----

  /** When the last frame of a chunk was handed over, `before` unless this step hands one over. */
  function FrameTime(s: State, step: Step, id: int, before: real): real {
    if (step.Fill? || step.Resend?) && Next(s, step).frames[id] > s.frames[id] then step.now else before
  }

  /** The same over a run, read off the frames alone. */
  function LastFrame(s: State, steps: seq<Step>, id: int, before: real): real
    decreases |steps|
  {
    if steps == [] then before
    else LastFrame(Next(s, steps[0]), steps[1..], id, FrameTime(s, steps[0], id, before))
  }

  lemma StepKeepsClock(s: State, step: Step, id: int, last: real)
    requires id in s.tracked ==> s.tracked[id].timestamp == last
    requires id in s.frames <==> id in s.tracked
    ensures var t := Next(s, step);
            && (id in t.frames <==> id in t.tracked)
            && (id in t.tracked ==> t.tracked[id].timestamp == FrameTime(s, step, id, last))
  {
  }

  /** A tracked chunk's timestamp is the time of its last frame. */
  lemma {:induction false} TimestampIsLastFrame(s: State, steps: seq<Step>, id: int, last: real)
    requires id in s.tracked ==> s.tracked[id].timestamp == last
    requires id in s.frames <==> id in s.tracked
    ensures id in Run(s, steps).tracked ==> Run(s, steps).tracked[id].timestamp == LastFrame(s, steps, id, last)
    decreases |steps|
  {
    if steps != [] {
      StepKeepsClock(s, steps[0], id, last);
      TimestampIsLastFrame(Next(s, steps[0]), steps[1..], id, FrameTime(s, steps[0], id, last));
    }
  }

  lemma InIndices(n: nat, id: int)
    ensures id in Indices(n) <==> 0 <= id < n
  {
    if 0 <= id < n {
      assert Indices(n)[id] == id;
    }
  }

  lemma CollectIsExact(s: State, now: real)
    requires !s.phase.Returned? && s.timedOut == []
    ensures var t := Next(s, Collect(now));
            && NoDup(t.timedOut) && t == s.(timedOut := t.timedOut)
            && forall id :: id in t.timedOut <==>
                 0 <= id < s.total && id in s.unacked && id in s.tracked && now - s.tracked[id].timestamp > 3.0
  {
    FilterMembers(id => TimedOut(s, id, now), Indices(s.total));
    forall id
      ensures id in Indices(s.total) <==> 0 <= id < s.total
    {
      InIndices(s.total, id);
    }
  }

  lemma EveryRunIsHeard(window: int, total: nat, steps: seq<Step>)
    ensures var s := Run(Init(window, total), steps);
            s.total == total && Heard(s, TrueAcks(Init(window, total), steps))
  {
    RunKeepsHeard(Init(window, total), steps, {});
    assert {} + TrueAcks(Init(window, total), steps) == TrueAcks(Init(window, total), steps);
  }

  /** Over every run: a sweep lists an outstanding chunk if and only if more than three seconds
      have passed since its last frame, and lists nothing else. */
  lemma SweepListsExactlyTheTimedOut(window: int, total: nat, steps: seq<Step>, now: real, id: int)
    requires var s := Run(Init(window, total), steps); !s.phase.Returned? && s.timedOut == []
    ensures var s := Run(Init(window, total), steps);
            id in Next(s, Collect(now)).timedOut <==>
            id in s.unacked && now - LastFrame(Init(window, total), steps, id, 0.0) > 3.0
  {
    EveryRunIsHeard(window, total, steps);
    TimestampIsLastFrame(Init(window, total), steps, id, 0.0);
    CollectIsExact(Run(Init(window, total), steps), now);
  }

  function Resends(times: seq<real>): seq<Step> {
    if times == [] then [] else [Resend(times[0])] + Resends(times[1..])
  }

  /** The chunk goes out once more: it is listed and has retries left. */
  predicate IsResent(s: State, id: int) {
    id in s.timedOut && id in s.tracked && s.tracked[id].retries < 5
  }

  /** The effect of resending a whole list on one chunk. */
  ghost predicate ResentOnce(s: State, t: State, id: int, times: seq<real>) {
    && t.frames[id] == s.frames[id] + (if IsResent(s, id) then 1 else 0)
    && t.tracked.Keys == s.tracked.Keys
    && (id in s.tracked ==> t.tracked[id].retries == s.tracked[id].retries + (if IsResent(s, id) then 1 else 0))
    && (id in s.tracked && !IsResent(s, id) ==> t.tracked[id] == s.tracked[id])
    && (forall i :: 0 <= i < |times| && i < |s.timedOut| && s.timedOut[i] == id && IsResent(s, id) ==>
          t.tracked[id].timestamp == times[i])
  }

  lemma ResendIsExact(s: State, now: real, id: int)
    requires !s.phase.Returned? && s.timedOut != []
    ensures var t := Next(s, Resend(now));
            && t.timedOut == s.timedOut[1..] && t.unacked == s.unacked && t.phase == s.phase
            && t.tracked.Keys == s.tracked.Keys
            && (id == s.timedOut[0] && IsResent(s, id) ==>
                  t.frames[id] == s.frames[id] + 1
                  && t.tracked[id] == Tracked(s.tracked[id].retries + 1, now))
            && (id != s.timedOut[0] || !IsResent(s, id) ==>
                  t.frames[id] == s.frames[id] && (id in s.tracked ==> t.tracked[id] == s.tracked[id]))
  {
  }

  /** Working off a list sends each chunk on it that has retries left exactly once more. */
  lemma {:induction false} ListIsResentOnce(s: State, times: seq<real>, id: int)
    requires !s.phase.Returned? && |times| == |s.timedOut| && NoDup(s.timedOut)
    ensures var t := Run(s, Resends(times));
            ResentOnce(s, t, id, times) && t.timedOut == [] && t.unacked == s.unacked && t.phase == s.phase
    decreases |times|
  {
    if times != [] {
      var t := Next(s, Resend(times[0]));
      assert s.timedOut == [s.timedOut[0]] + s.timedOut[1..];
      ResendIsExact(s, times[0], id);
      ListIsResentOnce(t, times[1..], id);
      RunCons(s, Resend(times[0]), Resends(times[1..]));
      assert id in t.timedOut <==> id in s.timedOut && id != s.timedOut[0];
    }
  }

  /** Over every run: a sweep, worked off, hands over exactly one frame of each outstanding chunk
      whose last frame is more than three seconds old and that has had at most five, and none of
      any other chunk. */
  lemma SweepResendsExactlyTheTimedOut(window: int, total: nat, steps: seq<Step>, now: real, times: seq<real>, id: int)
    requires var s := Run(Init(window, total), steps);
             && !s.phase.Returned? && s.timedOut == [] && |times| == |Next(s, Collect(now)).timedOut|
    ensures var s := Run(Init(window, total), steps);
            var t := Run(Next(s, Collect(now)), Resends(times));
            var due := id in s.unacked && s.frames[id] <= 5 &&
                       now - LastFrame(Init(window, total), steps, id, 0.0) > 3.0;
            && t.frames[id] == s.frames[id] + (if due then 1 else 0)
            && t.timedOut == [] && t.unacked == s.unacked
            && (due ==> id in t.tracked && t.tracked[id].timestamp in times)
  {
    var s := Run(Init(window, total), steps);
    var listed := Next(s, Collect(now));
    EveryRunIsHeard(window, total, steps);
    SweepListsExactlyTheTimedOut(window, total, steps, now, id);
    CollectIsExact(s, now);
    ListIsResentOnce(listed, times, id);
    if id in listed.timedOut {
      var i :| 0 <= i < |listed.timedOut| && listed.timedOut[i] == id;
      assert times[i] in times;
    }
  }

  // ---- When the sender returns ----

  ghost predicate ReturnIsEarned(s: State) {
    s.phase == Returned(false) ==> s.total == 0 || s.done != NotDone
  }

  /** The sender returns only when there was nothing to send, when all ACKs are in, or when the
      connection is lost; else it raises. */
  lemma {:induction false} ReturnsOnlyWhenDone(s: State, steps: seq<Step>)
    requires ReturnIsEarned(s)
    ensures ReturnIsEarned(Run(s, steps)) && Run(s, steps).total == s.total
    decreases |steps|
  {
    if steps != [] {
      ReturnsOnlyWhenDone(Next(s, steps[0]), steps[1..]);
    }
  }

  // ---- The sender object ----

  class SlidingWindowSender {
    const windowSize: int
    const total: nat
    var unacked: set<int>
    var acked: set<int>
    var chunks: map<int, Tracked>
    var sendIdx: nat
    var phase: Phase
    var timedOut: seq<int>
    var done: Done
    var frames: multiset<int>

    constructor (windowSize: int, total: nat)
      ensures View() == Init(windowSize, total)
    {
      this.windowSize, this.total := windowSize, total;
      unacked, acked, chunks := {}, {}, map[];
      sendIdx, phase := 0, if total == 0 then Returned(false) else Testing;
      timedOut, done, frames := [], NotDone, multiset{};
    }

    function View(): State
      reads this
    {
      State(windowSize, total, sendIdx, phase, unacked, acked, chunks, timedOut, done, frames)
    }

    /** The fill loop from one await of `_send_chunk` to the next. */
    method FillWindow(now: real)
      requires phase == Testing || phase == Sending
      modifies this
      ensures View() == Next(old(View()), Fill(now))
    {
      if phase == Sending {
        sendIdx := sendIdx + 1;
      }
      if sendIdx < total && |unacked| < windowSize {
        SendChunk(sendIdx, now);
      } else {
        phase := Waiting;
      }
    }

    method SendChunk(id: int, now: real)
      modifies this`unacked, this`chunks, this`frames, this`phase
      ensures unacked == old(unacked) + {id} && chunks == old(chunks)[id := Tracked(0, now)]
      ensures frames == old(frames) + multiset{id} && phase == Sending
    {
      unacked := unacked + {id};
      chunks := chunks[id := Tracked(0, now)];
      frames := frames + multiset{id};
      phase := Sending;
    }

    method HandleAck(index: int)
      requires Listening(View())
      modifies this
      ensures View() == Next(old(View()), Ack(index))
    {
      if index in unacked {
        unacked := unacked - {index};
      }
      acked := acked + {index};
      if |acked| >= total {
        done := ByAcks;
        return;
      }
      // The source takes the lock again here and leaves its sending loop at once.
    }

    method SweepCollect(now: real)
      requires timedOut == [] && !phase.Returned?
      modifies this
      ensures View() == Next(old(View()), Collect(now))
      ensures forall id :: id in timedOut <==>
                0 <= id < total && id in unacked && id in chunks && now - chunks[id].timestamp > 3.0
    {
      var s := View();
      CollectIsExact(s, now);
      timedOut := Filter(id => TimedOut(s, id, now), Indices(total));
    }

    method SweepNext(now: real)
      requires timedOut != [] && !phase.Returned?
      modifies this
      ensures View() == Next(old(View()), Resend(now))
    {
      var id := timedOut[0];
      timedOut := timedOut[1..];
      if id !in chunks || chunks[id].retries >= MAX_RETRIES {
        return;
      }
      chunks := chunks[id := Tracked(chunks[id].retries + 1, now)];
      frames := frames + multiset{id};
    }

    /** Any schedule of the three coroutines, the peer and the network. */
    method Drive(steps: seq<Step>)
      modifies this
      ensures View() == Run(old(View()), steps)
    {
      var i := 0;
      while i < |steps|
        invariant 0 <= i <= |steps|
        invariant Run(View(), steps[i..]) == Run(old(View()), steps)
      {
        assert steps[i..][1..] == steps[i + 1..];
        Take(steps[i]);
        i := i + 1;
      }
    }

    method Take(step: Step)
      modifies this
      ensures View() == Next(old(View()), step)
    {
      if phase.Returned? {
        return;
      }
      match step {
        case Fill(now) => if phase == Testing || phase == Sending { FillWindow(now); }
        case SendRaises => if phase == Sending { phase := Returned(true); }
        case Ack(index) => if Listening(View()) { HandleAck(index); }
        case ConnectionLost => if Listening(View()) { done := ByLoss; }
        case Collect(now) => if timedOut == [] { SweepCollect(now); }
        case Resend(now) => if timedOut != [] { SweepNext(now); }
        case Wake => if phase == Waiting && done != NotDone { phase := Returned(false); }
      }
    }
  }
}
