// The wake protocol of the receive path: RxKickGate is a token with one holder, and a block
// that is ready for the display does not sleep without a kick.
module RxKick {
  import opened Bytes
  import opened Normaliser
  import opened RxPath
  import opened RxRefs
  import opened RxStreams
  import DL = DisplayLane

  // ---- the token -------------------------------------------------------------------

  predicate ReaderHasToken(r: Reader) { r.Submitting? || r.Refused? }

  predicate UiHasToken(u: Ui) { u.UiSubmitting? || u.UiRefused? }

  // rx_kick_action from dispatch to disarm, and from its own re-arm to the outcome.
  predicate ActionHasToken(d: Dispatcher) { !d.Resting? && !d.Rechecking? }

  function Tokens(s: State): nat {
    s.kick.queued + One(ReaderHasToken(s.reader)) + One(UiHasToken(s.ui)) + One(ActionHasToken(s.dispatcher))
  }

  // A refused submitter keeps the token, with the loss on record, until it disarms.
  predicate TokenInv(s: State) {
    && Tokens(s) == One(s.kick.gate)
    && (s.reader.Refused? || s.ui.UiRefused? || s.dispatcher.KickRefused? ==> s.kick.lossy)
  }

  // Cutting and publishing blocks, writing the file and the file lane's admission take no part
  // in the protocol.
  predicate SameKick(s: State, t: State) {
    && t.kick == s.kick && t.dispatcher == s.dispatcher && t.ui == s.ui && t.pool.deferred == s.pool.deferred
    && t.show.paused == s.show.paused && t.show.lane == s.show.lane
    && ReaderHasToken(t.reader) == ReaderHasToken(s.reader) && (t.reader.Refused? ==> s.reader.Refused?)
  }

  lemma CutLeavesKick(s: State, step: Step)
    requires CanCut(s, step)
    ensures SameKick(s, DoCut(s, step))
  {}

  lemma PublishLeavesKick(s: State, step: Step)
    requires CanPublish(s, step)
    ensures SameKick(s, DoPublish(s, step))
  {}

  lemma FileLeavesKick(s: State, step: Step)
    ensures CanWrite(s, step) ==> SameKick(s, DoWrite(s, step))
    ensures CanAdmit(s, step) ==> SameKick(s, DoAdmit(s, step))
  {}

  lemma ReturnKeepsToken(s: State, step: Step)
    requires TokenInv(s) && CanReturn(s, step)
    ensures TokenInv(DoReturn(s, step))
  {}

  lemma SameKickKeepsToken(s: State, t: State)
    requires TokenInv(s) && SameKick(s, t)
    ensures TokenInv(t)
  {}

  lemma PopKeepsToken(s: State, step: Step)
    requires TokenInv(s) && CanPop(s, step)
    ensures TokenInv(DoPop(s, step))
  {}

  lemma KickKeepsToken(s: State, step: Step)
    requires TokenInv(s) && CanKick(s, step)
    ensures TokenInv(DoKick(s, step))
  {}

  lemma BoundKeepsToken(s: State, step: Step)
    requires TokenInv(s) && CanBound(s, step)
    ensures TokenInv(DoBound(s, step))
  {}

  lemma FormatKeepsToken(s: State, step: Step)
    requires TokenInv(s) && CanFormat(s, step)
    ensures TokenInv(DoFormat(s, step))
  {}

  lemma UiKeepsToken(s: State, step: Step)
    requires TokenInv(s) && CanUi(s, step)
    ensures TokenInv(DoUi(s, step))
  {}

  lemma StepKeepsToken(s: State, step: Step)
    requires TokenInv(s) && Can(s, step)
    ensures TokenInv(Do(s, step))
  {
    hide TokenInv, SameKick;
    hide CanCut, CanPublish, CanReturn, CanPop, CanFormat, CanKick, CanBound, CanWrite, CanAdmit, CanUi;
    hide DoCut, DoPublish, DoReturn, DoPop, DoFormat, DoKick, DoBound, DoWrite, DoAdmit, DoUi;
    FileLeavesKick(s, step);
    if CanCut(s, step) { CutLeavesKick(s, step); SameKickKeepsToken(s, DoCut(s, step)); }
    else if CanPublish(s, step) { PublishLeavesKick(s, step); SameKickKeepsToken(s, DoPublish(s, step)); }
    else if CanReturn(s, step) { ReturnKeepsToken(s, step); }
    else if CanPop(s, step) { PopKeepsToken(s, step); }
    else if CanFormat(s, step) { FormatKeepsToken(s, step); }
    else if CanKick(s, step) { KickKeepsToken(s, step); }
    else if CanBound(s, step) { BoundKeepsToken(s, step); }
    else if CanWrite(s, step) || CanAdmit(s, step) { SameKickKeepsToken(s, Do(s, step)); }
    else { UiKeepsToken(s, step); }
  }

  // ---- no lost wakeup: the display ring -------------------------------------------------

  // The read thread is committed to try_arm before it returns.
  predicate WillArm(r: Reader) {
    r.Publishing? || r.Counting? || r.Arming? || (r.Cutting? && r.i.accepted > 0)
  }

  predicate CountsSomething(r: Reader) { (r.Publishing? ==> r.d.len > 0) && (r.Counting? ==> r.n > 0) }

  predicate RingInv(s: State) {
    && CountsSomething(s.reader)
    && (s.pool.display != [] ==>
          || s.kick.gate || s.kick.lossy || s.pool.deferred.Some?
          || WillArm(s.reader) || s.dispatcher.Rechecking?)
  }

  lemma CutKeepsRing(s: State, step: Step)
    requires RingInv(s) && CanCut(s, step)
    ensures RingInv(DoCut(s, step))
  {}

  lemma ReaderKeepsRing(s: State, step: Step)
    requires RingInv(s) && TokenInv(s)
    ensures CanPublish(s, step) ==> RingInv(DoPublish(s, step))
    ensures CanReturn(s, step) ==> RingInv(DoReturn(s, step))
  {}

  lemma DispatcherKeepsRing(s: State, step: Step)
    requires RingInv(s) && TokenInv(s)
    ensures CanPop(s, step) ==> RingInv(DoPop(s, step))
    ensures CanKick(s, step) ==> RingInv(DoKick(s, step))
    ensures CanBound(s, step) ==> RingInv(DoBound(s, step))
  {}

  lemma FormatKeepsRing(s: State, step: Step)
    requires RingInv(s) && CanFormat(s, step)
    ensures RingInv(DoFormat(s, step))
  {}

  lemma OthersKeepRing(s: State, step: Step)
    requires RingInv(s) && TokenInv(s)
    ensures CanWrite(s, step) ==> RingInv(DoWrite(s, step))
    ensures CanAdmit(s, step) ==> RingInv(DoAdmit(s, step))
    ensures CanUi(s, step) ==> RingInv(DoUi(s, step))
  {}

  lemma StepKeepsRing(s: State, step: Step)
    requires RingInv(s) && TokenInv(s) && Can(s, step)
    ensures RingInv(Do(s, step))
  {
    if CanCut(s, step) { CutKeepsRing(s, step); }
    ReaderKeepsRing(s, step);
    DispatcherKeepsRing(s, step);
    OthersKeepRing(s, step);
    if CanFormat(s, step) { FormatKeepsRing(s, step); }
  }

  // ---- no lost wakeup: the deferred slot ----------------------------------------------------

  // What stopped the deferred block still stops it, or somebody is about to retry.
  predicate Excused(s: State) {
    || s.show.paused || s.show.lane.free == {} || s.ui.UiArming?
    || s.kick.lossy || s.kick.missed || s.kick.shifted
  }

  predicate SlotInv(s: State) {
    s.pool.deferred.Some? && (!s.kick.gate || s.dispatcher.Disarming?) ==> Excused(s)
  }

  lemma SameKickKeepsSlot(s: State, t: State)
    requires SlotInv(s) && SameKick(s, t)
    ensures SlotInv(t)
  {}

  lemma ReturnKeepsSlot(s: State, step: Step)
    requires SlotInv(s) && TokenInv(s) && CanReturn(s, step)
    ensures SlotInv(DoReturn(s, step))
  {}

  lemma PopKeepsSlot(s: State, step: Step)
    requires SlotInv(s) && TokenInv(s) && OneInHand(s) && CanPop(s, step)
    ensures SlotInv(DoPop(s, step))
  {}

  lemma KickKeepsSlot(s: State, step: Step)
    requires SlotInv(s) && TokenInv(s) && OneInHand(s) && CanKick(s, step)
    ensures SlotInv(DoKick(s, step))
  {}

  lemma BoundKeepsSlot(s: State, step: Step)
    requires SlotInv(s) && TokenInv(s) && OneInHand(s) && CanBound(s, step)
    ensures SlotInv(DoBound(s, step))
  {}

  lemma FormatKeepsSlot(s: State, step: Step)
    requires OneInHand(s) && LaneInv(s) && BlockShape(s) && CanFormat(s, step)
    ensures SlotInv(DoFormat(s, step))
  {
    if step.Format? { FormatEffect(s); }
  }

  // A drain that frees a buffer has completed a batch, or dropped a stale one.
  lemma DrainFrees(l: DL.Lane, capacity: nat, gen: nat)
    requires DL.WellFormed(l) && Queued(l.ready, gen)
    requires l.consumer.Some? ==> l.consumer.value.batch.gen == gen
    ensures
      var d := DL.Drain(l, capacity, gen);
      d.lane.free == l.free || d.completed
  {}

  lemma UiKeepsSlot(s: State, step: Step)
    requires SlotInv(s) && TokenInv(s) && LaneInv(s) && CanUi(s, step)
    ensures SlotInv(DoUi(s, step))
  {
    if step.DrainUi? && !StaleActive(s.show) { DrainFrees(s.show.lane, step.capacity, s.show.gen); }
  }

  lemma StepKeepsSlot(s: State, step: Step)
    requires SlotInv(s) && TokenInv(s) && OneInHand(s) && LaneInv(s) && BlockShape(s) && Can(s, step)
    ensures SlotInv(Do(s, step))
  {
    hide SlotInv, TokenInv, OneInHand, LaneInv, BlockShape, SameKick;
    hide CanCut, CanPublish, CanReturn, CanPop, CanFormat, CanKick, CanBound, CanWrite, CanAdmit, CanUi;
    hide DoCut, DoPublish, DoReturn, DoPop, DoFormat, DoKick, DoBound, DoWrite, DoAdmit, DoUi;
    FileLeavesKick(s, step);
    if CanCut(s, step) { CutLeavesKick(s, step); SameKickKeepsSlot(s, DoCut(s, step)); }
    else if CanPublish(s, step) { PublishLeavesKick(s, step); SameKickKeepsSlot(s, DoPublish(s, step)); }
    else if CanReturn(s, step) { ReturnKeepsSlot(s, step); }
    else if CanPop(s, step) { PopKeepsSlot(s, step); }
    else if CanFormat(s, step) { FormatKeepsSlot(s, step); }
    else if CanKick(s, step) { KickKeepsSlot(s, step); }
    else if CanBound(s, step) { BoundKeepsSlot(s, step); }
    else if CanWrite(s, step) || CanAdmit(s, step) { SameKickKeepsSlot(s, Do(s, step)); }
    else { UiKeepsSlot(s, step); }
  }

  // ---- the missed retry ---------------------------------------------------------------------

  // A missed retry leaves its block deferred and no kick behind.
  predicate MissedInv(s: State) {
    s.kick.missed ==>
      && (s.kick.lossy || s.pool.deferred.Some?)
      && (s.kick.gate ==> s.dispatcher.Disarming? && s.pool.deferred.Some?)
  }

  lemma SameKickKeepsMissed(s: State, t: State)
    requires MissedInv(s) && SameKick(s, t)
    ensures MissedInv(t)
  {}

  lemma ReturnKeepsMissed(s: State, step: Step)
    requires MissedInv(s) && CanReturn(s, step)
    ensures MissedInv(DoReturn(s, step))
  {}

  lemma PopKeepsMissed(s: State, step: Step)
    requires MissedInv(s) && TokenInv(s) && CanPop(s, step)
    ensures MissedInv(DoPop(s, step))
  {}

  lemma KickKeepsMissed(s: State, step: Step)
    requires MissedInv(s) && TokenInv(s) && CanKick(s, step)
    ensures MissedInv(DoKick(s, step))
  {}

  lemma BoundKeepsMissed(s: State, step: Step)
    requires MissedInv(s) && TokenInv(s) && CanBound(s, step)
    ensures MissedInv(DoBound(s, step))
  {}

  lemma FormatKeepsMissed(s: State, step: Step)
    requires MissedInv(s) && TokenInv(s) && CanFormat(s, step)
    ensures MissedInv(DoFormat(s, step))
  {}

  lemma UiKeepsMissed(s: State, step: Step)
    requires MissedInv(s) && CanUi(s, step)
    ensures MissedInv(DoUi(s, step))
  {}

  lemma StepKeepsMissed(s: State, step: Step)
    requires MissedInv(s) && TokenInv(s) && Can(s, step)
    ensures MissedInv(Do(s, step))
  {
    hide MissedInv, TokenInv, SameKick;
    hide CanCut, CanPublish, CanReturn, CanPop, CanFormat, CanKick, CanBound, CanWrite, CanAdmit, CanUi;
    hide DoCut, DoPublish, DoReturn, DoPop, DoFormat, DoKick, DoBound, DoWrite, DoAdmit, DoUi;
    FileLeavesKick(s, step);
    if CanCut(s, step) { CutLeavesKick(s, step); SameKickKeepsMissed(s, DoCut(s, step)); }
    else if CanPublish(s, step) { PublishLeavesKick(s, step); SameKickKeepsMissed(s, DoPublish(s, step)); }
    else if CanReturn(s, step) { ReturnKeepsMissed(s, step); }
    else if CanPop(s, step) { PopKeepsMissed(s, step); }
    else if CanFormat(s, step) { FormatKeepsMissed(s, step); }
    else if CanKick(s, step) { KickKeepsMissed(s, step); }
    else if CanBound(s, step) { BoundKeepsMissed(s, step); }
    else if CanWrite(s, step) || CanAdmit(s, step) { SameKickKeepsMissed(s, Do(s, step)); }
    else { UiKeepsMissed(s, step); }
  }

  // ---- over all runs ---------------------------------------------------------------------------

  ghost predicate KickInv(s: State) { TokenInv(s) && RingInv(s) && SlotInv(s) && MissedInv(s) }

  lemma InitKick(s: State)
    requires Init(s)
    ensures KickInv(s)
  {}

  lemma StepKeepsKick(s: State, step: Step)
    requires KickInv(s) && RefInv(s) && StreamInv(s) && Can(s, step)
    ensures KickInv(Do(s, step))
  {
    hide Do, Can;
    StepKeepsToken(s, step);
    StepKeepsRing(s, step);
    StepKeepsSlot(s, step);
    StepKeepsMissed(s, step);
  }

  lemma {:induction false} RunKeepsKick(states: seq<State>, steps: seq<Step>, k: nat)
    requires Run(states, steps) && Init(states[0]) && k < |states|
    ensures KickInv(states[k])
  {
    hide *;
    RunShape(states, steps);
    if k == 0 {
      InitKick(states[0]);
    } else {
      RunStep(states, steps, k - 1);
      RunKeepsKick(states, steps, k - 1);
      RunKeepsRefs(states, steps, k - 1);
      RunKeepsStreams(states, steps, k - 1);
      StepKeepsKick(states[k - 1], steps[k - 1]);
    }
  }

  // The gate is set exactly when one thread or the queue holds the token, so the static
  // event is never queued twice, nor while rx_kick_action can still submit it again.
  lemma OneKick(states: seq<State>, steps: seq<Step>, k: nat)
    requires Run(states, steps) && Init(states[0]) && k < |states|
    ensures states[k].kick.gate <==> Tokens(states[k]) == 1
    ensures Tokens(states[k]) <= 1 && states[k].kick.queued <= 1
  {
    RunKeepsKick(states, steps, k);
  }

  // No thread is inside a protocol.
  predicate AtRest(s: State) { s.reader.NoCall? && s.dispatcher.Resting? && s.ui.Away? }

  // With every thread at rest and no kick refused since, a block on the display ring has a
  // kick queued for it. A deferred block whose display is running and has a buffer, with no
  // session boundary in between, has one if and only if its retry was not missed.
  lemma NoLostWakeup(states: seq<State>, steps: seq<Step>, k: nat)
    requires Run(states, steps) && Init(states[0]) && k < |states|
    requires AtRest(states[k]) && !states[k].kick.lossy
    ensures
      var s := states[k];
      && (s.pool.display != [] && s.pool.deferred.None? ==> s.kick.queued == 1)
      && (s.pool.deferred.Some? && !s.show.paused && s.show.lane.free != {} && !s.kick.shifted
          ==> (s.kick.queued == 1 <==> !s.kick.missed))
  {
    RunKeepsKick(states, steps, k);
  }

  lemma ArmStep(s: State)
    requires MissedInv(s) && Can(s, UiArm)
    ensures Do(s, UiArm).kick.missed <==> s.kick.gate && s.dispatcher.Disarming? && s.pool.deferred.Some?
  {}

  lemma KickMissesNone(s: State, step: Step)
    ensures CanReturn(s, step) && DoReturn(s, step).kick.missed ==> s.kick.missed
    ensures CanKick(s, step) && DoKick(s, step).kick.missed ==> s.kick.missed
    ensures CanBound(s, step) && DoBound(s, step).kick.missed ==> s.kick.missed
    ensures CanUi(s, step) && !step.UiArm? && DoUi(s, step).kick.missed ==> s.kick.missed
  {}

  lemma FormatMissesNone(s: State, step: Step)
    ensures CanPop(s, step) ==> DoPop(s, step).kick == s.kick
    ensures CanFormat(s, step) ==> DoFormat(s, step).kick == s.kick
  {}

  lemma OnlyArmsMiss(s: State, step: Step)
    requires Can(s, step) && !step.UiArm?
    ensures Do(s, step).kick.missed ==> s.kick.missed
  {
    hide CanCut, CanPublish, CanReturn, CanPop, CanFormat, CanKick, CanBound, CanWrite, CanAdmit, CanUi;
    hide DoCut, DoPublish, DoReturn, DoPop, DoFormat, DoKick, DoBound, DoWrite, DoAdmit, DoUi;
    FileLeavesKick(s, step);
    KickMissesNone(s, step);
    FormatMissesNone(s, step);
    if CanCut(s, step) { CutLeavesKick(s, step); }
    if CanPublish(s, step) { PublishLeavesKick(s, step); }
  }

  // A retry is missed exactly when it meets a set gate while rx_kick_action, having deferred
  // its block, is about to disarm.
  lemma MissedIff(states: seq<State>, steps: seq<Step>, k: nat)
    requires Run(states, steps) && Init(states[0]) && k < |steps|
    ensures
      var s, t := states[k], states[k + 1];
      && (steps[k].UiArm? ==>
            (t.kick.missed <==> s.kick.gate && s.dispatcher.Disarming? && s.pool.deferred.Some?))
      && (!steps[k].UiArm? && t.kick.missed ==> s.kick.missed)
  {
    hide Run, Init, Can, Do;
    RunShape(states, steps);
    RunKeepsKick(states, steps, k);
    RunStep(states, steps, k);
    if steps[k].UiArm? { ArmStep(states[k]); } else { OnlyArmsMiss(states[k], steps[k]); }
  }

  // ---- a run with a missed retry ------------------------------------------------------------------

  const SCRIPT: seq<Step> := [
    // the view is paused and one byte arrives; its kick is queued
    SetOptions(false, true), Begin([65]), Claim(0, 0), PushDisplay, Count, EndOfData,
    ReaderArm, ReaderSubmit(true), ReleaseLease,
    // the kick runs and gives up on the block
    Dispatch, TakeReady, FormatRefused,
    // the view resumes before the action disarms
    SetOptions(false, false), UiArm,
    Disarm, Recheck]

  // The state after k steps of SCRIPT, as far as it matters.
  ghost predicate Stage(s: State, k: nat) {
    ArrivalStage(s, k) && ActionStage(s, k) && s.show.lane.free == IdSet(DL.BATCHES)
  }

  predicate ArrivalStage(s: State, k: nat) {
    && |s.pool.display| == (if 4 <= k <= 10 then 1 else 0)
    && (k <= 2 ==> s.pool == NewState().pool && s.log == NewState().log)
    && match k
       case 2 => s.reader == Cutting(Ingress(false, [65], 0, 0))
       case 3 =>
         && s.reader.Publishing? && s.reader.displayOk && s.reader.d.len == 1
         && !s.reader.i.fileLane && s.reader.i.rest == []
       case 4 => s.reader.Counting? && s.reader.n == 1 && s.reader.i.rest == []
       case 5 => s.reader.Cutting? && s.reader.i.rest == [] && s.reader.i.accepted > 0
       case 6 => s.reader.Arming?
       case 7 => s.reader.Submitting?
       case 8 => s.reader.Returning?
       case _ => s.reader.NoCall?
  }

  predicate ActionStage(s: State, k: nat) {
    && s.kick == Kick(7 <= k <= 14, if 8 <= k <= 9 then 1 else 0, false, k >= 14, false)
    && s.pool.deferred.Some? == (k >= 12)
    && s.show.paused == (1 <= k <= 12)
    && (if k == 13 then s.ui.UiArming? else s.ui.Away?)
    && match k
       case 10 => s.dispatcher == Popping(4)
       case 11 => s.dispatcher.Holding?
       case 12 => s.dispatcher.Disarming?
       case 13 => s.dispatcher.Disarming?
       case 14 => s.dispatcher.Disarming?
       case 15 => s.dispatcher.Rechecking?
       case _ => s.dispatcher.Resting?
  }

  lemma CutStage(s: State, k: nat)
    requires Stage(s, k) && k in {1, 2, 5}
    ensures CanCut(s, SCRIPT[k]) && Stage(DoCut(s, SCRIPT[k]), k + 1)
  {}

  lemma PublishStage(s: State, k: nat)
    requires Stage(s, k) && k in {3, 4}
    ensures CanPublish(s, SCRIPT[k]) && Stage(DoPublish(s, SCRIPT[k]), k + 1)
  {}

  lemma ReturnStage(s: State, k: nat)
    requires Stage(s, k) && k in {6, 7, 8}
    ensures CanReturn(s, SCRIPT[k]) && Stage(DoReturn(s, SCRIPT[k]), k + 1)
  {}

  lemma KickStage(s: State, k: nat)
    requires Stage(s, k) && k in {9, 14, 15}
    ensures CanKick(s, SCRIPT[k]) && Stage(DoKick(s, SCRIPT[k]), k + 1)
  {}

  lemma PopStage(s: State, k: nat)
    requires Stage(s, k) && k in {10, 11}
    ensures CanPop(s, SCRIPT[k]) && Stage(DoPop(s, SCRIPT[k]), k + 1)
  {}

  lemma UiStage(s: State, k: nat)
    requires Stage(s, k) && k in {0, 12, 13}
    ensures CanUi(s, SCRIPT[k]) && Stage(DoUi(s, SCRIPT[k]), k + 1)
  {}

  lemma NextStage(s: State, k: nat)
    requires Stage(s, k) && k < |SCRIPT|
    ensures Can(s, SCRIPT[k]) && Stage(Do(s, SCRIPT[k]), k + 1)
  {
    if k in {1, 2, 5} { CutStage(s, k); }
    else if k in {3, 4} { PublishStage(s, k); }
    else if k in {6, 7, 8} { ReturnStage(s, k); }
    else if k in {9, 14, 15} { KickStage(s, k); }
    else if k in {10, 11} { PopStage(s, k); }
    else { UiStage(s, k); }
  }

  lemma NewStage()
    ensures Init(NewState()) && Stage(NewState(), 0)
  {}

  lemma FirstStage() returns (states: seq<State>)
    ensures Run(states, SCRIPT[..0]) && states == [NewState()] && Stage(states[0], 0)
  {
    NewStage();
    states := [NewState()];
  }

  lemma {:induction false} RunToStage(k: nat) returns (states: seq<State>)
    requires k <= |SCRIPT|
    ensures Run(states, SCRIPT[..k]) && |states| == k + 1 && states[0] == NewState() && Stage(states[k], k)
  {
    hide *;
    if k == 0 {
      states := FirstStage();
    } else {
      var before := RunToStage(k - 1);
      NextStage(before[k - 1], k - 1);
      ExtendRun(before, SCRIPT[..k - 1], SCRIPT[k - 1]);
      assert SCRIPT[..k - 1] + [SCRIPT[k - 1]] == SCRIPT[..k];
      states := before + [Do(before[k - 1], SCRIPT[k - 1])];
    }
  }

  // The promise that a resume retries a deferred block fails on this run: the block is
  // deferred, the view runs with all buffers free, every thread is at rest, no kick was ever
  // refused, and no kick is queued.
  lemma RetryCanBeMissed() returns (states: seq<State>)
    ensures Run(states, SCRIPT) && Init(states[0])
    ensures
      var s := states[|SCRIPT|];
      && AtRest(s) && s.pool.deferred.Some? && !s.show.paused && s.show.lane.free != {}
      && !s.kick.lossy && !s.kick.shifted && s.kick.queued == 0 && !s.kick.gate
  {
    states := RunToStage(|SCRIPT|);
    assert SCRIPT[..|SCRIPT|] == SCRIPT;
    NewStage();
    assert 0 in states[|SCRIPT|].show.lane.free;
  }
}
