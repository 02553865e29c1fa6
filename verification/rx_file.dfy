// The log file over whole runs: when the writer can be handed a segment that has no file, and
// what the file holds when it cannot.
module RxFile {
  import opened Bytes
  import opened RxPath
  import opened RxRefs
  import opened RxStreams
  import LP = LeaseProtocol

  // ---- the leases of clean closes ------------------------------------------------------

  // A close begun while no queued Open could reopen the file is still to be carried out.
  predicate CleanPending(a: Admission) {
    a.closer == LP.Closed(true) || LP.CloseJob(true) in a.jobs || (a.closing.Some? && a.closing.value)
  }

  predicate OnlyClean(a: Admission) {
    && a.closer != LP.Waiting(false) && a.closer != LP.Closed(false)
    && LP.CloseJob(false) !in a.jobs && (a.closing.Some? ==> a.closing.value) && !a.underLease
  }

  predicate AdmitInv(s: State) {
    && (s.log.accepting ==> FileStays(s))
    && (s.admit.closer == LP.Waiting(true) || s.admit.closer == LP.Closed(true) ==>
          !s.log.accepting && !LP.Reopens(s.admit.jobs, FileStays(s)))
    && LP.CleanQueue(s.admit.jobs, FileStays(s))
    && (CleanPending(s.admit) ==> !s.log.accepting && !HoldsLease(s.reader))
    && (!s.admit.unclean ==> OnlyClean(s.admit))
  }

  lemma CallerKeepsAdmit(s: State, step: Step)
    requires AdmitInv(s) && CanAdmit(s, step)
    ensures AdmitInv(DoAdmit(s, step))
  {
    hide LP.Reopens, LP.CleanQueue;
    if step.RequestOpen? { LP.PushOpen(s.admit.jobs, FileStays(s)); }
    if step.RequestClose? { LP.PushClose(s.admit.jobs, FileStays(s), s.admit.closer.clean); }
  }

  lemma WriterKeepsAdmit(s: State, step: Step)
    requires AdmitInv(s) && CanWrite(s, step)
    ensures AdmitInv(DoWrite(s, step))
  {
    if step.OpenLog? || step.StartClose? {
      assert s.admit.jobs[0] in s.admit.jobs && forall j :: j in s.admit.jobs[1..] ==> j in s.admit.jobs;
      if step.OpenLog? && !s.log.open { LP.NoneToGuard(s.admit.jobs[1..], step.ok); }
    }
  }

  predicate SameAdmit(s: State, t: State) {
    && t.log.open == s.log.open && t.log.accepting == s.log.accepting && t.admit == s.admit
    && (HoldsLease(t.reader) ==> HoldsLease(s.reader) || s.log.accepting)
  }

  lemma CutLeavesAdmit(s: State, step: Step)
    requires CanCut(s, step)
    ensures SameAdmit(s, DoCut(s, step))
  {}

  lemma ReaderLeavesAdmit(s: State, step: Step)
    ensures CanPublish(s, step) ==> SameAdmit(s, DoPublish(s, step))
    ensures CanReturn(s, step) ==> SameAdmit(s, DoReturn(s, step))
  {}

  lemma DispatcherLeavesAdmit(s: State, step: Step)
    ensures CanPop(s, step) ==> SameAdmit(s, DoPop(s, step))
    ensures CanFormat(s, step) ==> SameAdmit(s, DoFormat(s, step))
    ensures CanKick(s, step) ==> SameAdmit(s, DoKick(s, step))
    ensures CanBound(s, step) ==> SameAdmit(s, DoBound(s, step))
    ensures CanUi(s, step) ==> SameAdmit(s, DoUi(s, step))
  {}

  lemma SameAdmitKeeps(s: State, t: State)
    requires AdmitInv(s) && SameAdmit(s, t)
    ensures AdmitInv(t)
  {
    hide LP.Reopens, LP.CleanQueue;
  }

  lemma StepKeepsAdmit(s: State, step: Step)
    requires AdmitInv(s) && Can(s, step)
    ensures AdmitInv(Do(s, step))
  {
    hide AdmitInv, SameAdmit;
    hide CanCut, CanPublish, CanReturn, CanPop, CanFormat, CanKick, CanBound, CanWrite, CanAdmit, CanUi;
    hide DoCut, DoPublish, DoReturn, DoPop, DoFormat, DoKick, DoBound, DoWrite, DoAdmit, DoUi;
    if CanCut(s, step) { CutLeavesAdmit(s, step); }
    ReaderLeavesAdmit(s, step);
    DispatcherLeavesAdmit(s, step);
    if CanCut(s, step) || CanPublish(s, step) || CanReturn(s, step) || CanPop(s, step) || CanFormat(s, step)
       || CanKick(s, step) || CanBound(s, step) {
      SameAdmitKeeps(s, Do(s, step));
    }
    else if CanWrite(s, step) { WriterKeepsAdmit(s, step); }
    else if CanAdmit(s, step) { CallerKeepsAdmit(s, step); }
    else { SameAdmitKeeps(s, DoUi(s, step)); }
  }

  lemma InitAdmit(s: State)
    requires Init(s)
    ensures AdmitInv(s)
  {}

  lemma {:induction false} RunKeepsAdmit(states: seq<State>, steps: seq<Step>, k: nat)
    requires Run(states, steps) && Init(states[0]) && k < |states|
    ensures AdmitInv(states[k])
  {
    hide *;
    RunShape(states, steps);
    if k == 0 {
      InitAdmit(states[0]);
    } else {
      RunStep(states, steps, k - 1);
      RunKeepsAdmit(states, steps, k - 1);
      StepKeepsAdmit(states[k - 1], steps[k - 1]);
    }
  }

  // ---- over all runs -----------------------------------------------------------------------

  lemma WriterSteps(s: State, step: Step)
    requires Can(s, step) && (step.CloseFile? || step.ChargeTail?)
    ensures CanWrite(s, step)
  {}

  lemma OnlyCloseUnderLease(s: State, step: Step)
    requires Can(s, step) && !step.CloseFile?
    ensures Do(s, step).admit.underLease == s.admit.underLease
  {
    hide DoFormat, DoCut, DoPublish;
    if CanCut(s, step) { CutLeavesAdmit(s, step); }
    ReaderLeavesAdmit(s, step);
    DispatcherLeavesAdmit(s, step);
  }

  // The file is closed under a lease exactly by a Close job that meets one at its end, and
  // only by one whose close was begun while a queued Open job could reopen the file.
  lemma ClosedUnderLeaseIff(states: seq<State>, steps: seq<Step>, k: nat)
    requires Run(states, steps) && Init(states[0]) && k < |steps| && !states[k].admit.underLease
    ensures
      var s := states[k];
      && (states[k + 1].admit.underLease <==> steps[k].CloseFile? && s.log.open && HoldsLease(s.reader))
      && (states[k + 1].admit.underLease ==> s.admit.closing == Some(false) && s.admit.unclean)
  {
    hide Can, Do;
    RunKeepsAdmit(states, steps, k);
    RunStep(states, steps, k);
    if steps[k].CloseFile? {
      CloseFileIs(states[k]);
      assert states[k].admit.closing.Some? && states[k].admit.closing.value ==> CleanPending(states[k].admit);
    } else {
      OnlyCloseUnderLease(states[k], steps[k]);
    }
  }

  lemma CloseFileIs(s: State)
    requires Can(s, CloseFile)
    ensures CanWrite(s, CloseFile) && Do(s, CloseFile) == DoWrite(s, CloseFile)
  {}

  // A caller that begins no close while a queued Open job could reopen the file never has the
  // file closed under a lease.
  lemma CleanClosesHold(states: seq<State>, steps: seq<Step>, k: nat)
    requires Run(states, steps) && Init(states[0]) && k < |states| && !states[k].admit.unclean
    ensures !states[k].admit.underLease
  {
    RunKeepsAdmit(states, steps, k);
  }

  lemma ChargesOnlyThen(s: State)
    requires FileInv(s) && CanWrite(s, ChargeTail)
    ensures s.log.stopping || (!s.log.open && s.admit.underLease)
  {}

  // The writer charges a tail only when it is stopping, or when the file was closed under a
  // lease; so for a caller of clean closes its no-file branch is dead.
  lemma NoSegmentWithoutFile(states: seq<State>, steps: seq<Step>, k: nat)
    requires Run(states, steps) && Init(states[0]) && k < |steps| && steps[k].ChargeTail?
    ensures states[k].log.stopping || (!states[k].log.open && states[k].admit.underLease && states[k].admit.unclean)
  {
    hide Can, Do;
    RunKeepsStreams(states, steps, k);
    RunKeepsAdmit(states, steps, k);
    RunStep(states, steps, k);
    WriterSteps(states[k], steps[k]);
    ChargesOnlyThen(states[k]);
  }

  lemma CloseLeavesNothing(s: State)
    requires FileInv(s) && CanWrite(s, CloseFile) && s.log.open && !s.log.tailCharged
    ensures s.log.written == s.log.leased
  {
    assert s.log.written + [] + [] == s.log.written;
  }

  // While no tail was given up, the log file is a prefix of the leased bytes in order, whatever
  // the short and failed writes; the missing rest is with the writer and on the raw ring; and
  // closing the file leaves it holding every leased byte. A tail is never given up before
  // stopping by a caller of clean closes.
  lemma FileIsLosslessAndOrdered(states: seq<State>, steps: seq<Step>, k: nat)
    requires Run(states, steps) && Init(states[0]) && k < |states|
    ensures
      var s := states[k];
      && (!s.log.tailCharged ==>
            s.log.leased == s.log.written + WriterRest(s) + RingText(s.pool.mem, s.pool.raw))
      && (!s.log.tailCharged && k < |steps| && steps[k].CloseFile? && s.log.open ==> s.log.written == s.log.leased)
      && (!s.log.stopping && !s.admit.unclean ==> !s.log.tailCharged)
  {
    hide Can, Do;
    RunKeepsStreams(states, steps, k);
    RunKeepsAdmit(states, steps, k);
    if k < |steps| && steps[k].CloseFile? && states[k].log.open && !states[k].log.tailCharged {
      RunStep(states, steps, k);
      WriterSteps(states[k], steps[k]);
      CloseLeavesNothing(states[k]);
    }
  }

  // ---- progress -----------------------------------------------------------------------------

  ghost predicate Leads(s: State, steps: seq<Step>, t: State)
    decreases |steps|
  {
    if steps == [] then t == s else Can(s, steps[0]) && Leads(Do(s, steps[0]), steps[1..], t)
  }

  // The writer's next step on an open file.
  function NextWrite(s: State): Step {
    match s.writer
    case Parked => PopRaw
    case Writing(d, offset) => if offset < d.len then WriteSome(d.len - offset) else ReleaseRaw
    case Written(_) => ReleaseRaw
  }

  function WriteLeft(s: State): nat {
    3 * |s.pool.raw|
    + match s.writer
      case Parked => 0
      case Writing(d, offset) => if offset < d.len then 2 else 1
      case Written(_) => 1
  }

  lemma WriterMoves(s: State)
    requires BlockShape(s) && s.log.open && WriteLeft(s) > 0
    ensures
      var step := NextWrite(s);
      && CanWrite(s, step)
      && var t := DoWrite(s, step);
      && WriteLeft(t) < WriteLeft(s) && t.log == s.log.(written := t.log.written)
  {}

  lemma WriteIs(s: State, step: Step)
    requires CanWrite(s, step)
    ensures Can(s, step) && Do(s, step) == DoWrite(s, step)
  {}

  lemma {:induction false} DriveWriter(s: State) returns (steps: seq<Step>, t: State)
    requires RefInv(s) && FileInv(s) && s.log.open
    ensures Leads(s, steps, t) && FileInv(t) && WriteLeft(t) == 0 && t.log == s.log.(written := t.log.written)
    decreases WriteLeft(s)
  {
    hide RefInv, FileInv, Can, Do, CanWrite, DoWrite, WriteLeft, NextWrite;
    if WriteLeft(s) == 0 {
      steps, t := [], s;
    } else {
      RefShape(s);
      WriterMoves(s);
      var step := NextWrite(s);
      WriteIs(s, step);
      StepKeepsRefs(s, step);
      StepKeepsFile(s, step);
      var rest;
      rest, t := DriveWriter(Do(s, step));
      steps := [step] + rest;
      assert steps[1..] == rest;
    }
  }

  lemma NothingLeft(s: State)
    requires FileInv(s) && WriteLeft(s) == 0 && !s.log.tailCharged
    ensures s.pool.raw == [] && s.writer.Parked? && s.log.written == s.log.leased
  {
    assert s.log.written + [] + [] == s.log.written;
  }

  // From every reachable state of an open file the writer alone can go on until the raw ring is
  // empty and, if no tail was given up, the file holds every leased byte.
  lemma WriterCanFinish(states: seq<State>, steps: seq<Step>) returns (more: seq<Step>, t: State)
    requires Run(states, steps) && Init(states[0]) && |states| == |steps| + 1
    requires states[|steps|].log.open && !states[|steps|].log.tailCharged
    ensures Leads(states[|steps|], more, t)
    ensures t.pool.raw == [] && t.writer.Parked? && t.log.written == t.log.leased == states[|steps|].log.leased
  {
    hide Run, Init, RefInv, LaneInv, ShowInv, FileInv;
    RunKeepsStreams(states, steps, |steps|);
    RunKeepsRefs(states, steps, |steps|);
    more, t := DriveWriter(states[|steps|]);
    NothingLeft(t);
  }

  // ---- the failing run ----------------------------------------------------------------------

  const SCRIPT: seq<Step> := [
    // an open() that timed out leaves its job; a close begins and sees no lease
    RequestOpen, CloseAdmission, SeeNoLease,
    // the job reopens admission; one byte arrives under a lease
    OpenLog(true), Begin([65]),
    // the Close job drains an empty ring and closes the file
    RequestClose, StartClose, CloseFile,
    // the segment reaches the raw ring, and the writer has no file for it
    Claim(0, 0), PushRaw, PopRaw, ChargeTail]

  // The state after k steps of SCRIPT, as far as it matters.
  predicate Stage(s: State, k: nat) {
    && !s.log.stopping && s.log.open == (4 <= k <= 7) && s.log.accepting == (4 <= k <= 6)
    && s.admit == Admission(if 1 <= k <= 3 then [LP.OpenJob] else if k == 6 then [LP.CloseJob(false)] else [],
                            if k == 2 then LP.Waiting(false) else if 3 <= k <= 5 then LP.Closed(false) else LP.Idle,
                            if k == 7 then Some(false) else None, k >= 8, k >= 2)
    && (k <= 8 ==> s.pool == NewState().pool) && s.counters.rejected == (if k == 12 then 1 else 0)
    && ReaderStage(s, k)
  }

  predicate ReaderStage(s: State, k: nat) {
    && (if k <= 4 then s.reader.NoCall?
        else if k <= 8 then s.reader == Cutting(Ingress(true, [65], 0, 0))
        else s.reader.Publishing? && s.reader.i.fileLane && s.reader.d.len == 1 && s.reader.rawDone == (k >= 10))
    && |s.pool.raw| == (if k == 10 then 1 else 0)
    && (k == 10 ==> s.pool.raw[0].len == 1)
    && (if k <= 10 then s.writer.Parked?
        else if k == 11 then s.writer.Writing? && s.writer.offset == 0 && s.writer.d.len == 1 else s.writer.Written?)
  }

  lemma AdmitStage(s: State, k: nat)
    requires Stage(s, k) && k in {0, 1, 2, 5}
    ensures CanAdmit(s, SCRIPT[k]) && Stage(DoAdmit(s, SCRIPT[k]), k + 1)
  {
    assert k == 1 ==> LP.Reopens(s.admit.jobs, false);
  }

  lemma WriteStage(s: State, k: nat)
    requires Stage(s, k) && k in {3, 6, 7, 10, 11}
    ensures CanWrite(s, SCRIPT[k]) && Stage(DoWrite(s, SCRIPT[k]), k + 1)
  {}

  lemma ReaderStep(s: State, k: nat)
    requires Stage(s, k) && k in {4, 8, 9}
    ensures k != 9 ==> CanCut(s, SCRIPT[k]) && Stage(DoCut(s, SCRIPT[k]), k + 1)
    ensures k == 9 ==> CanPublish(s, SCRIPT[k]) && Stage(DoPublish(s, SCRIPT[k]), k + 1)
  {
    assert k == 8 ==> 0 in FreeBlocks(s.pool.refs);
  }

  lemma NextStage(s: State, k: nat)
    requires Stage(s, k) && k < |SCRIPT|
    ensures Can(s, SCRIPT[k]) && Stage(Do(s, SCRIPT[k]), k + 1)
  {
    hide Stage;
    if k in {0, 1, 2, 5} { AdmitStage(s, k); }
    else if k in {4, 8, 9} { ReaderStep(s, k); }
    else { WriteStage(s, k); }
  }

  lemma FirstStage() returns (states: seq<State>)
    ensures Run(states, SCRIPT[..0]) && |states| == 1 && Init(states[0]) && Stage(states[0], 0)
  {
    NewIsInit();
    states := [NewState()];
  }

  lemma {:induction false} RunToStage(k: nat) returns (states: seq<State>)
    requires k <= |SCRIPT|
    ensures Run(states, SCRIPT[..k]) && |states| == k + 1 && Init(states[0]) && Stage(states[k], k)
  {
    hide *;
    if k == 0 {
      states := FirstStage();
    } else {
      var before := RunToStage(k - 1);
      NextStage(before[k - 1], k - 1);
      ExtendRun(before, SCRIPT[..k - 1], SCRIPT[k - 1]);
      assert SCRIPT[..k - 1] + [SCRIPT[k - 1]] == SCRIPT[..k];
      states := before + [Do(before[k - 1], SCRIPT[k - 1])];
    }
  }

  // The no-file branch of process_rx_ref is reached: a leased segment is charged as loss
  // although nothing is stopping.
  lemma NoFileBranchIsReached() returns (states: seq<State>)
    ensures Run(states, SCRIPT) && Init(states[0])
    ensures
      var s := states[|SCRIPT|];
      !s.log.stopping && !s.log.open && s.admit.underLease && s.counters.rejected == 1
  {
    states := RunToStage(|SCRIPT|);
    assert SCRIPT[..|SCRIPT|] == SCRIPT;
  }
}
