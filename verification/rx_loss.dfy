// The one way the receive path loses bytes without counting them: exactly when it happens, what
// a caller does to avoid it, and a run on which it does.
module RxLoss {
  import opened Bytes
  import opened Normaliser
  import opened RxPath
  import opened RxRefs
  import opened RxStreams
  import opened RxLedger
  import DL = DisplayLane

  // ---- every batch came from a block with bytes ---------------------------------------

  predicate Sourced(l: DL.Lane) {
    && (forall i :: 0 <= i < |l.ready| ==> l.ready[i].source > 0)
    && (l.consumer.Some? ==> l.consumer.value.batch.source > 0)
  }

  lemma FormatSources(s: State, step: Step)
    requires Sourced(s.show.lane) && BlockShape(s) && CanFormat(s, step)
    ensures Sourced(DoFormat(s, step).show.lane)
  {}

  lemma DrainSources(l: DL.Lane, capacity: nat, gen: nat)
    requires DL.WellFormed(l) && Sourced(l)
    ensures Sourced(DL.Drain(l, capacity, gen).lane)
  {}

  lemma UiSources(s: State, step: Step)
    requires Sourced(s.show.lane) && CanUi(s, step)
    ensures Sourced(DoUi(s, step).show.lane)
  {
    hide DL.Drain, DL.WellFormed, Sourced, DoUi;
    if step.DrainUi? {
      DrainSources(s.show.lane, step.capacity, s.show.gen);
      DrainOnlyLane(s, step.capacity);
    } else {
      NotDrained(s, step);
    }
  }

  lemma StepKeepsSourced(s: State, step: Step)
    requires Sourced(s.show.lane) && BlockShape(s) && Can(s, step)
    ensures Sourced(Do(s, step).show.lane)
  {
    hide Sourced, BlockShape;
    hide CanCut, CanPublish, CanReturn, CanPop, CanFormat, CanKick, CanBound, CanWrite, CanAdmit, CanUi;
    hide DoCut, DoPublish, DoReturn, DoPop, DoFormat, DoKick, DoBound, DoWrite, DoAdmit, DoUi;
    if CanCut(s, step) { CutLeavesLane(s, step); }
    ReaderLeavesLane(s, step);
    DispatcherLeavesLane(s, step);
    WriterLeavesLane(s, step);
    if CanCut(s, step) || CanPublish(s, step) || CanReturn(s, step) || CanPop(s, step) {}
    else if CanFormat(s, step) { FormatSources(s, step); }
    else if CanKick(s, step) {}
    else if CanBound(s, step) { BoundSources(s, step); }
    else if CanWrite(s, step) || CanAdmit(s, step) {}
    else { UiSources(s, step); }
  }

  lemma BoundSources(s: State, step: Step)
    requires Sourced(s.show.lane) && CanBound(s, step)
    ensures Sourced(DoBound(s, step).show.lane)
  {}

  lemma InitSourced(s: State)
    requires Init(s)
    ensures Sourced(s.show.lane) && s.ledger.dropped == 0
  {}

  lemma {:induction false} RunKeepsSourced(states: seq<State>, steps: seq<Step>, k: nat)
    requires Run(states, steps) && Init(states[0]) && k < |states|
    ensures Sourced(states[k].show.lane)
  {
    hide *;
    RunShape(states, steps);
    if k == 0 {
      InitSourced(states[0]);
    } else {
      RunStep(states, steps, k - 1);
      RunKeepsSourced(states, steps, k - 1);
      RunKeepsRefs(states, steps, k - 1);
      RefShape(states[k - 1]);
      StepKeepsSourced(states[k - 1], steps[k - 1]);
    }
  }

  // ---- when a step loses bytes -------------------------------------------------------------

  // The drain caller asks for text while it holds part of an unlogged batch of another session.
  predicate LosesBatch(s: State, step: Step) {
    step.DrainUi? && step.capacity > 0 && StaleActive(s.show) && s.show.lane.consumer.value.batch.unlogged
  }

  lemma NothingStale(ready: seq<DL.Batch>, gen: nat)
    requires Queued(ready, gen)
    ensures DL.Stale(ready, gen) == 0
  {}

  lemma DrainDrops(s: State, capacity: nat)
    requires CanUi(s, DrainUi(capacity)) && Queued(s.show.lane.ready, s.show.gen)
    ensures
      var t := DoUi(s, DrainUi(capacity));
      && t.counters == s.counters && t.show.gen == s.show.gen
      && t.ledger == s.ledger.(takenUnlogged := t.ledger.takenUnlogged, dropped := t.ledger.dropped)
      && t.ledger.dropped ==
           s.ledger.dropped + (if capacity > 0 && StaleActive(s.show) then ActiveUnlogged(s.show.lane) else 0)
  {
    NothingStale(s.show.lane.ready, s.show.gen);
    assert s.show.lane.ready[..0] == [];
  }

  predicate SameLoss(s: State, t: State) { t.ledger.dropped == s.ledger.dropped }

  lemma CutLosesNothing(s: State, step: Step)
    requires CanCut(s, step)
    ensures SameLoss(s, DoCut(s, step))
  {}

  lemma ReaderLosesNothing(s: State, step: Step)
    ensures CanPublish(s, step) ==> SameLoss(s, DoPublish(s, step))
    ensures CanReturn(s, step) ==> SameLoss(s, DoReturn(s, step))
  {}

  lemma DispatcherLosesNothing(s: State, step: Step)
    ensures CanPop(s, step) ==> SameLoss(s, DoPop(s, step))
    ensures CanFormat(s, step) ==> SameLoss(s, DoFormat(s, step))
    ensures CanKick(s, step) ==> SameLoss(s, DoKick(s, step))
    ensures CanBound(s, step) ==> SameLoss(s, DoBound(s, step))
  {}

  lemma OthersLoseNothing(s: State, step: Step)
    ensures CanWrite(s, step) ==> SameLoss(s, DoWrite(s, step))
    ensures CanAdmit(s, step) ==> SameLoss(s, DoAdmit(s, step))
    ensures CanUi(s, step) && !step.DrainUi? ==> SameLoss(s, DoUi(s, step))
  {}

  lemma DrainIs(s: State, step: Step)
    requires Can(s, step) && step.DrainUi?
    ensures CanUi(s, step) && Do(s, step) == DoUi(s, step)
  {}

  lemma StepDrops(s: State, step: Step)
    requires Can(s, step) && Queued(s.show.lane.ready, s.show.gen) && Sourced(s.show.lane)
    ensures
      var t := Do(s, step);
      && t.ledger.dropped ==
           s.ledger.dropped + (if LosesBatch(s, step) then s.show.lane.consumer.value.batch.source else 0)
      && (LosesBatch(s, step) ==> s.show.lane.consumer.value.batch.source > 0 && t.counters == s.counters)
  {
    hide CanCut, CanPublish, CanReturn, CanPop, CanFormat, CanKick, CanBound, CanWrite, CanAdmit, CanUi;
    hide DoCut, DoPublish, DoReturn, DoPop, DoFormat, DoKick, DoBound, DoWrite, DoAdmit, DoUi;
    if CanCut(s, step) { CutLosesNothing(s, step); }
    ReaderLosesNothing(s, step);
    DispatcherLosesNothing(s, step);
    OthersLoseNothing(s, step);
    if step.DrainUi? {
      DrainIs(s, step);
      DrainDrops(s, step.capacity);
    }
  }

  // Bytes leave the receive path uncounted exactly at a drain with room that finds its caller
  // holding part of an unlogged batch of another session: the batch goes, and no counter moves.
  lemma DroppedIff(states: seq<State>, steps: seq<Step>, k: nat)
    requires Run(states, steps) && Init(states[0]) && k < |steps|
    ensures states[k + 1].ledger.dropped != states[k].ledger.dropped <==> LosesBatch(states[k], steps[k])
    ensures LosesBatch(states[k], steps[k]) ==>
              && states[k + 1].ledger.dropped == states[k].ledger.dropped + ActiveUnlogged(states[k].show.lane)
              && states[k + 1].counters == states[k].counters
  {
    hide Run, Init, Can, Do;
    RunShape(states, steps);
    RunKeepsSourced(states, steps, k);
    RunKeepsStreams(states, steps, k);
    RunStep(states, steps, k);
    StepDrops(states[k], steps[k]);
  }

  // ---- the caller's side ----------------------------------------------------------------------

  predicate AtBoundary(step: Step) { step.CommitClose? || step.CommitOpen? }

  // At every session boundary the caller has drained its current unlogged batch to the end.
  ghost predicate DrainedAtBoundaries(states: seq<State>, steps: seq<Step>)
    requires |states| == |steps| + 1
  {
    forall i :: 0 <= i < |steps| && AtBoundary(steps[i]) ==> ActiveUnlogged(states[i].show.lane) == 0
  }

  predicate NothingToLose(s: State) {
    s.ledger.dropped == 0 && (StaleActive(s.show) ==> ActiveUnlogged(s.show.lane) == 0)
  }

  predicate SameActive(s: State, t: State) {
    t.show.lane.consumer == s.show.lane.consumer && t.show.gen == s.show.gen
  }

  lemma FormatKeepsActive(s: State, step: Step)
    requires CanFormat(s, step)
    ensures SameActive(s, DoFormat(s, step))
  {}

  // A drain leaves its caller with the batch it had, or one of this session, or none.
  lemma DrainActive(l: DL.Lane, capacity: nat, gen: nat)
    requires DL.WellFormed(l)
    ensures
      var m := DL.Drain(l, capacity, gen).lane;
      m.consumer.Some? ==>
        || m.consumer.value.batch.gen == gen
        || (l.consumer.Some? && m.consumer.value.batch == l.consumer.value.batch)
  {}

  lemma UiActive(s: State, step: Step)
    requires NothingToLose(s) && CanUi(s, step)
    ensures StaleActive(DoUi(s, step).show) ==> ActiveUnlogged(DoUi(s, step).show.lane) == 0
  {
    hide DL.Drain, DL.WellFormed, DoUi;
    if step.DrainUi? {
      DrainActive(s.show.lane, step.capacity, s.show.gen);
      DrainOnlyLane(s, step.capacity);
    } else {
      NotDrained(s, step);
    }
  }

  lemma BoundActive(s: State, step: Step)
    requires NothingToLose(s) && CanBound(s, step) && (AtBoundary(step) ==> ActiveUnlogged(s.show.lane) == 0)
    ensures StaleActive(DoBound(s, step).show) ==> ActiveUnlogged(DoBound(s, step).show.lane) == 0
  {}

  lemma StepKeepsActive(s: State, step: Step)
    requires NothingToLose(s) && Can(s, step) && (AtBoundary(step) ==> ActiveUnlogged(s.show.lane) == 0)
    ensures StaleActive(Do(s, step).show) ==> ActiveUnlogged(Do(s, step).show.lane) == 0
  {
    hide CanCut, CanPublish, CanReturn, CanPop, CanFormat, CanKick, CanBound, CanWrite, CanAdmit, CanUi, AtBoundary;
    hide DoCut, DoPublish, DoReturn, DoPop, DoFormat, DoKick, DoBound, DoWrite, DoAdmit, DoUi, ActiveUnlogged;
    if CanCut(s, step) { CutLeavesLane(s, step); }
    ReaderLeavesLane(s, step);
    DispatcherLeavesLane(s, step);
    WriterLeavesLane(s, step);
    if CanCut(s, step) || CanPublish(s, step) || CanReturn(s, step) || CanPop(s, step) {}
    else if CanFormat(s, step) { FormatKeepsActive(s, step); SameActiveSame(s, DoFormat(s, step)); }
    else if CanKick(s, step) {}
    else if CanBound(s, step) { BoundActive(s, step); }
    else if CanWrite(s, step) || CanAdmit(s, step) {}
    else { UiActive(s, step); }
  }

  lemma SameActiveSame(s: State, t: State)
    requires SameActive(s, t)
    ensures StaleActive(t.show) == StaleActive(s.show) && ActiveUnlogged(t.show.lane) == ActiveUnlogged(s.show.lane)
  {}

  lemma StepLosesNothing(s: State, step: Step)
    requires NothingToLose(s) && Queued(s.show.lane.ready, s.show.gen) && Sourced(s.show.lane) && Can(s, step)
    requires AtBoundary(step) ==> ActiveUnlogged(s.show.lane) == 0
    ensures NothingToLose(Do(s, step))
  {
    hide Can, Do, AtBoundary;
    StepKeepsActive(s, step);
    StepDrops(s, step);
  }

  lemma InitNothingToLose(s: State)
    requires Init(s)
    ensures NothingToLose(s)
  {}

  lemma InQueue(s: State)
    requires StreamInv(s)
    ensures Queued(s.show.lane.ready, s.show.gen)
  {}

  lemma AtStep(states: seq<State>, steps: seq<Step>, k: nat)
    requires |states| == |steps| + 1 && DrainedAtBoundaries(states, steps) && k < |steps|
    ensures AtBoundary(steps[k]) ==> ActiveUnlogged(states[k].show.lane) == 0
  {}

  lemma {:induction false} RunLosesNothing(states: seq<State>, steps: seq<Step>, k: nat)
    requires Run(states, steps) && Init(states[0]) && k < |states|
    requires |states| == |steps| + 1 && DrainedAtBoundaries(states, steps)
    ensures NothingToLose(states[k])
  {
    hide *;
    if k == 0 {
      InitNothingToLose(states[0]);
    } else {
      RunStep(states, steps, k - 1);
      RunLosesNothing(states, steps, k - 1);
      RunKeepsStreams(states, steps, k - 1);
      InQueue(states[k - 1]);
      RunKeepsSourced(states, steps, k - 1);
      AtStep(states, steps, k - 1);
      StepLosesNothing(states[k - 1], steps[k - 1]);
    }
  }

  // For a caller that finishes the batch it is draining before every session boundary no byte
  // is lost uncounted: each is in a log file, was drained, normalised to nothing, is counted in
  // save_rejected_bytes, or is still on its way.
  lemma NoSilentLoss(states: seq<State>, steps: seq<Step>, k: nat)
    requires Run(states, steps) && Init(states[0]) && k < |states|
    requires |states| == |steps| + 1 && DrainedAtBoundaries(states, steps)
    ensures
      var s := states[k];
      && s.ledger.dropped == 0
      && s.ledger.offered ==
           s.ledger.writtenTotal + s.ledger.takenUnlogged + s.ledger.formattedToNothing
           + s.counters.rejected + OnTheWay(s)
  {
    hide Run, Init, DrainedAtBoundaries, OnTheWay;
    RunLosesNothing(states, steps, k);
    EveryByteAccounted(states, steps, k);
  }

  lemma CloseIs(s: State)
    requires s.dispatcher.Resting?
    ensures Can(s, CommitClose) && Do(s, CommitClose) == Retire(s, s.show.gen + 1, false)
  {}

  lemma DrainCan(s: State, capacity: nat)
    requires s.ui.Away? && DL.WellFormed(s.show.lane)
    ensures Can(s, DrainUi(capacity))
  {}

  lemma CloseThenDrain(s: State, capacity: nat)
    requires LaneInv(s) && Sourced(s.show.lane) && !StaleActive(s.show)
    requires s.dispatcher.Resting? && s.ui.Away? && capacity > 0
    ensures Can(s, CommitClose)
    ensures
      var t := Do(s, CommitClose);
      && Can(t, DrainUi(capacity))
      && (LosesBatch(t, DrainUi(capacity)) <==> s.show.lane.consumer.Some? && s.show.lane.consumer.value.batch.unlogged)
      && ActiveUnlogged(t.show.lane) == ActiveUnlogged(s.show.lane) && t.ledger.dropped == s.ledger.dropped
      && t.counters.rejected == s.counters.rejected + DL.UnloggedBytes(s.show.lane.ready)
      && t.ledger == s.ledger.(chargedDisplay := t.ledger.chargedDisplay)
      && Queued(t.show.lane.ready, t.show.gen) && Sourced(t.show.lane)
  {
    hide Can, Do, DL.UnloggedBytes, DL.Placed;
    CloseIs(s);
    DrainCan(Do(s, CommitClose), capacity);
  }

  // The other half. Whatever the run so far, a close commit and then a drain lose bytes exactly
  // if the caller was still draining an unlogged batch: it is lost whole, and the close charges
  // only the batches that were waiting on the ring.
  lemma UnfinishedBatchIsLost(states: seq<State>, steps: seq<Step>, capacity: nat) returns (longer: seq<State>)
    requires Run(states, steps) && Init(states[0]) && |states| == |steps| + 1 && capacity > 0
    requires
      var s := states[|steps|];
      s.dispatcher.Resting? && s.ui.Away? && !StaleActive(s.show)
    ensures |longer| == |states| + 2 && longer[..|states|] == states
    ensures Run(longer, steps + [CommitClose, DrainUi(capacity)])
    ensures
      var s, t := states[|steps|], longer[|steps| + 2];
      && t.ledger.dropped == s.ledger.dropped + ActiveUnlogged(s.show.lane)
      && (t.ledger.dropped > s.ledger.dropped <==> s.show.lane.consumer.Some? && s.show.lane.consumer.value.batch.unlogged)
      && t.counters.rejected == s.counters.rejected + DL.UnloggedBytes(s.show.lane.ready)
      && t.ledger.offered == s.ledger.offered && t.ledger.writtenTotal == s.ledger.writtenTotal
  {
    hide Run, Init, Can, Do, Sourced;
    var s := states[|steps|];
    RunKeepsStreams(states, steps, |steps|);
    RunKeepsSourced(states, steps, |steps|);
    CloseThenDrain(s, capacity);
    var t := Do(s, CommitClose);
    ExtendRun(states, steps, CommitClose);
    StepDrops(t, DrainUi(capacity));
    DrainCounts(t, capacity);
    ExtendRun(states + [t], steps + [CommitClose], DrainUi(capacity));
    assert steps + [CommitClose] + [DrainUi(capacity)] == steps + [CommitClose, DrainUi(capacity)];
    longer := states + [t] + [Do(t, DrainUi(capacity))];
  }

  lemma DrainCounts(s: State, capacity: nat)
    requires Can(s, DrainUi(capacity))
    ensures
      var t := Do(s, DrainUi(capacity));
      && t.counters == s.counters
      && t.ledger == s.ledger.(takenUnlogged := t.ledger.takenUnlogged, dropped := t.ledger.dropped)
  {}

  // ---- a run that loses a byte ------------------------------------------------------------------

  const SCRIPT: seq<Step> := [
    // two bytes arrive and their kick is queued
    Begin([65, 66]), Claim(0, 0), PushDisplay, Count, EndOfData, ReaderArm, ReaderSubmit(true), ReleaseLease,
    // the kick formats them
    Dispatch, TakeReady, Acquire(0), Format, ReleaseBlock, StopPopping, Disarm, Recheck,
    // the caller drains one byte of the two
    DrainUi(1)]

  // The state after k steps of SCRIPT, as far as it matters.
  predicate Stage(s: State, k: nat) {
    && ReaderStage(s, k) && ActionStage(s, k) && LaneStage(s.show, k)
    && s.ui.Away? && s.pool.deferred.None?
    && s.counters.rejected == 0 && s.ledger.dropped == 0 && s.ledger.writtenTotal == 0
    && s.ledger.offered == (if k == 0 then 0 else 2) && s.show.delivered == (if k <= 16 then [] else [65])
  }

  predicate ReaderStage(s: State, k: nat) {
    && |s.pool.display| == (if 3 <= k <= 9 then 1 else 0)
    && (k <= 1 ==> s.pool == NewState().pool && s.log == NewState().log)
    && (3 <= k <= 9 ==> s.pool.display[0] == Desc(0, 2, 0, true))
    && (2 <= k <= 12 ==> Payload(s.pool.mem, Desc(0, 2, 0, true)) == [65, 66])
    && match k
       case 1 => s.reader == Cutting(Ingress(false, [65, 66], 0, 0))
       case 2 => s.reader == Publishing(Ingress(false, [], 0, 0), Desc(0, 2, 0, true), true, false)
       case 3 => s.reader.Counting? && s.reader.n == 2 && s.reader.i.rest == []
       case 4 => s.reader.Cutting? && s.reader.i.rest == [] && s.reader.i.accepted > 0
       case 5 => s.reader.Arming?
       case 6 => s.reader.Submitting?
       case 7 => s.reader.Returning?
       case _ => s.reader.NoCall?
  }

  predicate ActionStage(s: State, k: nat) {
    && s.kick.gate == (6 <= k <= 14) && s.kick.queued == (if 7 <= k <= 8 then 1 else 0)
    && match k
       case 9 => s.dispatcher == Popping(4)
       case 10 => s.dispatcher == Holding(3, Desc(0, 2, 0, true))
       case 11 => s.dispatcher == Formatting(3, Desc(0, 2, 0, true), 0)
       case 12 => s.dispatcher.Consumed?
       case 13 => s.dispatcher.Popping?
       case 14 => s.dispatcher.Disarming?
       case 15 => s.dispatcher.Rechecking?
       case _ => s.dispatcher.Resting?
  }

  predicate LaneStage(show: Show, k: nat) {
    && show.gen == 0 && !show.paused && !show.hex
    && (k <= 10 ==> show.lane == DL.NewLane())
    && (k <= 11 ==> show.carry == FRESH && show.lane.ready == [] && show.lane.bufs == DL.NewLane().bufs)
    && (12 <= k <= 16 ==> DL.WellFormed(show.lane) && show.lane.ready == [DL.Batch(0, 2, 0, 0, 2, true)])
    && (12 <= k <= 16 ==> DL.WellBatch(show.lane, show.lane.ready[0]) && show.lane.bufs[0][..2] == [65, 66])
    && (k <= 16 ==> show.lane.consumer.None?)
    && (k == 17 ==> show.lane.consumer == Some(DL.Active(DL.Batch(0, 2, 0, 0, 2, true), 1)) && show.lane.ready == [])
  }

  lemma TwoLetters()
    ensures Norm(FRESH, [65, 66]).1 == [65, 66]
  {
    assert [65, 66][1..] == [66] && [66][1..] == [];
  }

  lemma CutStage(s: State, k: nat)
    requires Stage(s, k) && k in {0, 1, 4}
    ensures CanCut(s, SCRIPT[k]) && Stage(DoCut(s, SCRIPT[k]), k + 1)
  {
    if k == 1 { assert 0 in FreeBlocks(s.pool.refs); }
  }

  lemma PublishStage(s: State, k: nat)
    requires Stage(s, k) && k in {2, 3}
    ensures CanPublish(s, SCRIPT[k]) && Stage(DoPublish(s, SCRIPT[k]), k + 1)
  {}

  lemma ReturnStage(s: State, k: nat)
    requires Stage(s, k) && k in {5, 6, 7}
    ensures CanReturn(s, SCRIPT[k]) && Stage(DoReturn(s, SCRIPT[k]), k + 1)
  {}

  lemma PopStage(s: State, k: nat)
    requires Stage(s, k) && k in {9, 12}
    ensures CanPop(s, SCRIPT[k]) && Stage(DoPop(s, SCRIPT[k]), k + 1)
  {}

  lemma AcquireStage(s: State)
    requires Stage(s, 10)
    ensures CanFormat(s, SCRIPT[10]) && Stage(DoFormat(s, SCRIPT[10]), 11)
  {}

  lemma FormatStage(s: State)
    requires Stage(s, 11)
    ensures CanFormat(s, SCRIPT[11]) && Stage(DoFormat(s, SCRIPT[11]), 12)
  {
    hide Norm, Payload;
    TwoLetters();
  }

  lemma KickStage(s: State, k: nat)
    requires Stage(s, k) && k in {8, 13, 14, 15}
    ensures CanKick(s, SCRIPT[k]) && Stage(DoKick(s, SCRIPT[k]), k + 1)
  {}

  lemma UiStage(s: State)
    requires Stage(s, 16)
    ensures CanUi(s, SCRIPT[16]) && Stage(DoUi(s, SCRIPT[16]), 17)
  {
    var ready := s.show.lane.ready;
    assert DL.Stale(ready, 0) == 0 && ready[..0] == [] && ready[1..] == [];
    assert s.show.lane.bufs[0][0..1] == s.show.lane.bufs[0][..2][..1] == [65];
  }

  lemma NextStage(s: State, k: nat)
    requires Stage(s, k) && k < |SCRIPT|
    ensures Can(s, SCRIPT[k]) && Stage(Do(s, SCRIPT[k]), k + 1)
  {
    hide Stage, DoCut, DoPublish, DoReturn, DoPop, DoFormat, DoKick, DoUi;
    if k in {0, 1, 4} { CutStage(s, k); }
    else if k in {2, 3} { PublishStage(s, k); }
    else if k in {5, 6, 7} { ReturnStage(s, k); }
    else if k in {9, 12} { PopStage(s, k); }
    else if k == 10 { AcquireStage(s); }
    else if k == 11 { FormatStage(s); }
    else if k in {8, 13, 14, 15} { KickStage(s, k); }
    else { UiStage(s); }
  }

  lemma FirstStage() returns (states: seq<State>)
    ensures Run(states, SCRIPT[..0]) && |states| == 1 && Init(states[0]) && Stage(states[0], 0)
  {
    NewIsInit();
    states := [NewState()];
  }

  lemma {:induction false} RunToStage(k: nat) returns (states: seq<State>)
    requires k <= |SCRIPT|
    ensures Run(states, SCRIPT[..k]) && |states| == k + 1 && Init(states[0]) && Stage(states[k], k)
  {
    hide *;
    if k == 0 {
      states := FirstStage();
    } else {
      var before := RunToStage(k - 1);
      NextStage(before[k - 1], k - 1);
      ExtendRun(before, SCRIPT[..k - 1], SCRIPT[k - 1]);
      assert SCRIPT[..k - 1] + [SCRIPT[k - 1]] == SCRIPT[..k];
      states := before + [Do(before[k - 1], SCRIPT[k - 1])];
    }
  }

  // Two bytes are delivered and one of them shown; the other is neither shown, nor written, nor
  // counted, nor on its way.
  lemma LossCanBeSilent() returns (states: seq<State>)
    ensures Run(states, SCRIPT + [CommitClose, DrainUi(1)]) && |states| == |SCRIPT| + 3 && Init(states[0])
    ensures states[|SCRIPT|].ledger.offered == 2 && states[|SCRIPT|].show.delivered == [65]
    ensures
      var s := states[|SCRIPT| + 2];
      && s.ledger.offered == s.ledger.dropped == 2 && s.counters.rejected == 0 && s.ledger.writtenTotal == 0
      && OnTheWay(s) == 0
  {
    hide Run, Init, OnTheWay;
    var before := RunToStage(|SCRIPT|);
    assert SCRIPT[..|SCRIPT|] == SCRIPT;
    states := UnfinishedBatchIsLost(before, SCRIPT, 1);
    assert states[0] == states[..|before|][0] && states[|SCRIPT|] == states[..|before|][|SCRIPT|];
    EveryByteAccounted(states, SCRIPT + [CommitClose, DrainUi(1)], |SCRIPT| + 2);
  }
}
