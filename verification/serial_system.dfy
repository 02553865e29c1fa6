// The port lifecycle as a system: the ABI caller, the session threads that report faults, and
// the Dispatcher that runs SerialAo's actions in signal order.
module SerialSystem {
  import opened SerialAo

  // The one ABI caller, inside queue_open or xcom_close.
  datatype Abi =
    | Outside
    | OpenLoaded(port: PortState)       // port_state loaded
    | OpenStored                        // sentinel stored, cancel cleared, signal not yet submitted
    | CloseLoaded(port: PortState)
    | CloseReady

  // History: `impatient` when an open was started while the last one was still unresolved.
  datatype State = State(port: Port, abi: Abi, impatient: bool)

  datatype Step =
    | LoadForOpen
    | DecideOpen                        // load last_open_result, then refuse or store the sentinel
    | SubmitOpen(accepted: bool)
    | GiveUpWaiting                     // xcom_open's deadline: cancel_open = 1
    | LoadForClose
    | DecideClose
    | SubmitClose(accepted: bool)
    | ReportFault(accepted: bool)       // a session thread; refused: the direct store and the latch
    | Dispatch(env: Env)

  predicate Can(s: State, step: Step) {
    match step
    case LoadForOpen => s.abi.Outside?
    case DecideOpen => s.abi.OpenLoaded?
    case SubmitOpen(_) => s.abi.OpenStored?
    case GiveUpWaiting => s.abi.Outside?
    case LoadForClose => s.abi.Outside?
    case DecideClose => s.abi.CloseLoaded?
    case SubmitClose(_) => s.abi.CloseReady?
    case ReportFault(_) => s.port.live
    case Dispatch(_) => s.port.queue != []
  }

  function Submit(p: Port, signal: Signal): Port { p.(queue := p.queue + [signal]) }

  function Run(p: Port, signal: Signal, env: Env): Port {
    match signal
    case SigOpen => DoOpen(p, env)
    case SigClose => DoClose(p, env)
    case SigFault => DoFault(p, env)
  }

  function Do(s: State, step: Step): State
    requires Can(s, step)
  {
    var p := s.port;
    match step
    case LoadForOpen => s.(abi := OpenLoaded(p.published), impatient := s.impatient || p.result.Busy?)
    case DecideOpen =>
      if p.result.Busy? || (s.abi.port != Closed && s.abi.port != Fault) then s.(abi := Outside)
      else s.(abi := OpenStored, port := p.(result := Busy, cancel := false))
    case SubmitOpen(accepted) =>
      s.(abi := Outside, port := if accepted then Submit(p, SigOpen) else p.(result := Failed))
    case GiveUpWaiting => s.(port := p.(cancel := true))
    case LoadForClose => s.(abi := CloseLoaded(p.published))
    case DecideClose =>
      if s.abi.port == Closed && !p.result.Busy? then s.(abi := Outside)
      else s.(abi := CloseReady, port := if s.abi.port == Opening || p.result.Busy? then p.(cancel := true) else p)
    case SubmitClose(accepted) =>
      s.(abi := Outside, port := if accepted then Submit(p, SigClose) else p)
    case ReportFault(accepted) =>
      s.(port := if accepted then Submit(p, SigFault) else p.(published := Fault, faultPending := true))
    case Dispatch(env) => s.(port := Run(p.(queue := p.queue[1..]), p.queue[0], env))
  }

  ghost predicate Init(s: State) {
    && s.port == Port(Closed, Closed, Failed, false, false, 0, 0, false, [], 0, 0, false)
    && s.abi == Outside && !s.impatient
  }

  // ---- the port at rest ------------------------------------------------------------------

  lemma DispatchKeepsRest(p: Port, env: Env)
    requires Rest(p) && p.queue != []
    ensures Rest(Run(p.(queue := p.queue[1..]), p.queue[0], env))
  {
    hide DoOpen, DoClose, DoFault;
    var q := p.(queue := p.queue[1..]);
    DoOpenResult(q, env);
    DoCloseResult(q, env);
    DoFaultResult(q, env);
    assert p.queue == [p.queue[0]] + q.queue;
  }

  lemma StepKeepsRest(s: State, step: Step)
    requires Rest(s.port) && Can(s, step)
    ensures Rest(Do(s, step).port)
  {
    if step.Dispatch? { DispatchKeepsRest(s.port, step.env); }
  }

  // ---- the open sentinel -------------------------------------------------------------------

  function Opens(queue: seq<Signal>): nat {
    if queue == [] then 0 else (if queue[0] == SigOpen then 1 else 0) + Opens(queue[1..])
  }

  lemma {:induction false} OpensPush(queue: seq<Signal>, signal: Signal)
    ensures Opens(queue + [signal]) == Opens(queue) + (if signal == SigOpen then 1 else 0)
  {
    if queue == [] {
      assert queue + [signal] == [signal] && [signal][1..] == [];
    } else {
      assert (queue + [signal])[1..] == queue[1..] + [signal];
      OpensPush(queue[1..], signal);
    }
  }

  // Requests whose sentinel stands: stored and not yet submitted, or queued.
  function Requests(s: State): nat { Opens(s.port.queue) + (if s.abi.OpenStored? then 1 else 0) }

  // An open that got past its checks, or will.
  predicate Admitted(s: State) {
    s.abi.OpenStored? || Opens(s.port.queue) > 0 || (s.abi.OpenLoaded? && (s.abi.port == Closed || s.abi.port == Fault))
  }

  ghost predicate SentinelInv(s: State) {
    && Requests(s) <= 1
    && (Requests(s) == 1 ==> s.port.result.Busy?)
    && (!s.impatient ==> PatientInv(s))
  }

  ghost predicate PatientInv(s: State) {
    && (s.port.result.Busy? ==> Requests(s) == 1)
    && (s.abi.OpenLoaded? ==> Requests(s) == 0)
    && (Admitted(s) ==> ReadyToOpen(s.port))
  }

  lemma AbiKeepsSentinel(s: State, step: Step)
    requires Rest(s.port) && SentinelInv(s) && Can(s, step) && !step.Dispatch?
    ensures SentinelInv(Do(s, step))
  {
    if step.SubmitOpen? { OpensPush(s.port.queue, SigOpen); }
    if step.SubmitClose? { OpensPush(s.port.queue, SigClose); }
    if step.ReportFault? { OpensPush(s.port.queue, SigFault); }
  }

  // Dispatching the Open finds an edge and resolves the sentinel.
  lemma OpenResolves(s: State, env: Env)
    requires Rest(s.port) && SentinelInv(s) && !s.impatient && s.port.queue != [] && s.port.queue[0] == SigOpen
    ensures
      var t := Do(s, Dispatch(env));
      && ReadyToOpen(s.port) && !t.port.result.Busy? && Requests(t) == 0
      && (t.port.result.Ok? <==> env.success)
  {
    hide DoOpen;
    var q := s.port.(queue := s.port.queue[1..]);
    DoOpenResult(q, env);
    OpensPush(q.queue, SigClose);
  }

  // For every caller: a dispatched Open resolves the sentinel exactly when the port is closed,
  // faulted, or has a latched fault to reconcile first.
  lemma OpenResolvesIff(p: Port, env: Env)
    requires Rest(p) && [SigOpen] <= p.queue && p.result.Busy?
    ensures !Run(p.(queue := p.queue[1..]), p.queue[0], env).result.Busy? <==> ReadyToOpen(p)
  {
    hide DoOpen;
    DoOpenResult(p.(queue := p.queue[1..]), env);
  }

  lemma DispatchKeepsSentinel(s: State, env: Env)
    requires Rest(s.port) && SentinelInv(s) && Can(s, Dispatch(env))
    ensures SentinelInv(Do(s, Dispatch(env)))
  {
    if s.port.queue[0] == SigOpen { OpenKeepsSentinel(s, env); } else { OtherKeepsSentinel(s, env); }
  }

  lemma OpenKeepsSentinel(s: State, env: Env)
    requires Rest(s.port) && SentinelInv(s) && s.port.queue != [] && s.port.queue[0] == SigOpen
    ensures SentinelInv(Do(s, Dispatch(env)))
  {
    hide DoOpen, DoClose, DoFault, Rest;
    OpenLeavesQueue(s, env);
    if !s.impatient { OpenResolves(s, env); }
  }

  lemma OtherKeepsSentinel(s: State, env: Env)
    requires Rest(s.port) && SentinelInv(s) && s.port.queue != [] && s.port.queue[0] != SigOpen
    ensures SentinelInv(Do(s, Dispatch(env)))
  {
    hide DoOpen, DoClose, DoFault;
    var q := s.port.(queue := s.port.queue[1..]);
    DoCloseResult(q, env);
    DoFaultResult(q, env);
  }

  lemma OpenLeavesQueue(s: State, env: Env)
    requires Rest(s.port) && SentinelInv(s) && s.port.queue != [] && s.port.queue[0] == SigOpen
    ensures Requests(Do(s, Dispatch(env))) == 0
  {
    hide DoOpen;
    var q := s.port.(queue := s.port.queue[1..]);
    DoOpenResult(q, env);
    OpensPush(q.queue, SigClose);
  }

  lemma StepKeepsSentinel(s: State, step: Step)
    requires Rest(s.port) && SentinelInv(s) && Can(s, step)
    ensures SentinelInv(Do(s, step))
  {
    if step.Dispatch? { DispatchKeepsSentinel(s, step.env); } else { AbiKeepsSentinel(s, step); }
  }

  // ---- sessions --------------------------------------------------------------------------------

  // Entering OPEN takes a new open generation, and nothing else does.
  lemma StepMovesSession(s: State, step: Step)
    requires Rest(s.port) && Can(s, step)
    ensures
      var p, q := s.port, Do(s, step).port;
      && q.openGeneration >= p.openGeneration
      && (q.state == Open && q.openGeneration == p.openGeneration ==> p.state == Open)
      && (q.state != Open ==> q.openGeneration == p.openGeneration)
  {
    if step.Dispatch? {
      hide DoOpen, DoClose, DoFault;
      var q := s.port.(queue := s.port.queue[1..]);
      DoOpenResult(q, step.env);
      DoCloseResult(q, step.env);
      DoFaultResult(q, step.env);
    }
  }

  // `generation` is not a session number: a close takes the number the next open will have.
  lemma CloseTakesNextGeneration(p: Port, env: Env, envOpen: Env)
    requires Rest(p) && p.state == Open && envOpen.success && !envOpen.cancelSeen
    ensures
      var closed := DoClose(p, env);
      closed.generation == DoOpen(closed, envOpen).generation == p.generation + 1
  {
    hide DoOpen;
    var closed := DoClose(p, env);
    assert closed.generation == p.generation + 1 by {
      hide FindEdge;
      Fires(p, OnClose, env);
      Fires(Transition(p, OnClose, env), OnCloseDone, env);
    }
    DoCloseResult(p, env);
    DoOpenResult(closed, envOpen);
  }

  lemma CancelledAt(s: State, env: Env)
    requires Rest(s.port) && Can(s, Dispatch(env)) && env.cancelSeen
    ensures
      var p, q := s.port, Do(s, Dispatch(env)).port;
      && q.opens == p.opens
      && (p.queue[0] == SigOpen && ReadyToOpen(p) ==> q.published != Open)
  {
    hide DoOpen, DoClose, DoFault;
    var q := s.port.(queue := s.port.queue[1..]);
    DoOpenResult(q, env);
    DoCloseResult(q, env);
    DoFaultResult(q, env);
  }

  // ---- over all runs ------------------------------------------------------------------------------

  ghost predicate Advances(states: seq<State>, steps: seq<Step>, k: nat)
    requires |states| == |steps| + 1 && k < |steps|
  {
    Can(states[k], steps[k]) && states[k + 1] == Do(states[k], steps[k])
  }

  ghost predicate IsRun(states: seq<State>, steps: seq<Step>) {
    && |states| == |steps| + 1
    && forall k :: 0 <= k < |steps| ==> Advances(states, steps, k)
  }

  lemma RunShape(states: seq<State>, steps: seq<Step>)
    requires IsRun(states, steps)
    ensures |states| == |steps| + 1
  {}

  lemma RunStep(states: seq<State>, steps: seq<Step>, k: nat)
    requires IsRun(states, steps) && k < |steps|
    ensures Can(states[k], steps[k]) && states[k + 1] == Do(states[k], steps[k])
  {
    assert Advances(states, steps, k);
  }

  lemma InitIsAtRest(s: State)
    requires Init(s)
    ensures Rest(s.port) && SentinelInv(s)
  {}

  lemma {:induction false} RunKeepsRest(states: seq<State>, steps: seq<Step>, k: nat)
    requires IsRun(states, steps) && Init(states[0]) && k < |states|
    ensures Rest(states[k].port) && SentinelInv(states[k])
  {
    hide *;
    RunShape(states, steps);
    if k == 0 {
      InitIsAtRest(states[0]);
    } else {
      RunStep(states, steps, k - 1);
      RunKeepsRest(states, steps, k - 1);
      StepKeepsRest(states[k - 1], steps[k - 1]);
      StepKeepsSentinel(states[k - 1], steps[k - 1]);
    }
  }

  // Between actions, whatever the interleaving of requests, faults and refused signals: the
  // port is never OPENING; a CLOSING port has its Close queued; the native session is live
  // exactly when the state is OPEN or CLOSING; port_state differs from the state only as a
  // latched FAULT, which implies a live session; and owner_open never ran over a live one.
  lemma PortAlwaysAtRest(states: seq<State>, steps: seq<Step>, k: nat)
    requires IsRun(states, steps) && Init(states[0]) && k < |states|
    ensures
      var p := states[k].port;
      && p.state != Opening
      && (p.state == Closing ==> SigClose in p.queue)
      && (p.live <==> p.state == Open || p.state == Closing)
      && (p.published != p.state ==> p.published == Fault && p.faultPending)
      && (p.faultPending ==> p.live)
      && !p.openedLive
  {
    RunKeepsRest(states, steps, k);
  }

  // A caller that waits for each open to resolve before starting the next one always finds
  // the sentinel true: BUSY means exactly one Open is on its way; and dispatching it finds an
  // edge and resolves it with the result of the native open.
  lemma SentinelIsExact(states: seq<State>, steps: seq<Step>, k: nat)
    requires IsRun(states, steps) && Init(states[0]) && k < |states| && !states[k].impatient
    ensures states[k].port.result.Busy? <==> Requests(states[k]) == 1
    ensures Requests(states[k]) <= 1
    ensures k < |steps| && steps[k].Dispatch? && [SigOpen] <= states[k].port.queue ==>
              && ReadyToOpen(states[k].port) && Requests(states[k + 1]) == 0
              && states[k + 1].port.result == (if steps[k].env.success then Ok else Failed)
  {
    RunKeepsRest(states, steps, k);
    if k < |steps| {
      RunStep(states, steps, k);
      if steps[k].Dispatch? && states[k].port.queue[0] == SigOpen {
        hide DoOpen;
        OpenResolves(states[k], steps[k].env);
        DoOpenResult(states[k].port.(queue := states[k].port.queue[1..]), steps[k].env);
      }
    }
  }

  // For every caller, patient or not: at most one Open is on its way, and while it is the
  // sentinel says BUSY.
  lemma OneOpenAtATime(states: seq<State>, steps: seq<Step>, k: nat)
    requires IsRun(states, steps) && Init(states[0]) && k < |states|
    ensures Requests(states[k]) <= 1
    ensures Requests(states[k]) == 1 ==> states[k].port.result.Busy?
  {
    RunKeepsRest(states, steps, k);
  }

  // A cancel flag seen at the exchange keeps the dispatched Open from ever publishing OPEN.
  lemma CancelledOpenIsNotPublished(states: seq<State>, steps: seq<Step>, k: nat)
    requires IsRun(states, steps) && Init(states[0]) && k < |steps|
    requires steps[k].Dispatch? && steps[k].env.cancelSeen && [SigOpen] <= states[k].port.queue
    ensures states[k + 1].port.opens == states[k].port.opens
    ensures ReadyToOpen(states[k].port) ==> states[k + 1].port.published != Open
  {
    RunKeepsRest(states, steps, k);
    RunStep(states, steps, k);
    CancelledAt(states[k], steps[k].env);
  }

  lemma {:induction false} SessionMarks(states: seq<State>, steps: seq<Step>, i: nat, j: nat)
    requires IsRun(states, steps) && Init(states[0]) && i <= j < |states|
    requires states[i].port.state == Open
    ensures states[j].port.openGeneration >= states[i].port.openGeneration
    ensures states[j].port.state == Open && states[j].port.openGeneration == states[i].port.openGeneration ==>
              forall m :: i <= m <= j ==> states[m].port.state == Open
    decreases j
  {
    hide *;
    RunShape(states, steps);
    if i < j {
      SessionMarks(states, steps, i, j - 1);
      RunKeepsRest(states, steps, j - 1);
      RunStep(states, steps, j - 1);
      StepMovesSession(states[j - 1], steps[j - 1]);
    }
  }

  // Session fencing: a payload stamped with the generation while the port reads OPEN, and
  // written later because the generation still matches and the port reads OPEN, belongs to
  // the very same session: the port never left OPEN in between. This holds although
  // `generation` alone is not monotone and a close hands out the number of the next open.
  lemma StaleWritesAreFenced(states: seq<State>, steps: seq<Step>, i: nat, j: nat)
    requires IsRun(states, steps) && Init(states[0]) && i <= j < |states|
    requires states[i].port.published == Open && states[j].port.published == Open
    requires states[i].port.generation == states[j].port.generation
    ensures states[i].port.openGeneration == states[j].port.openGeneration
    ensures forall m :: i <= m <= j ==> states[m].port.state == Open
  {
    RunKeepsRest(states, steps, i);
    RunKeepsRest(states, steps, j);
    SessionMarks(states, steps, i, j);
  }

  // ---- the impatient caller -------------------------------------------------------------------------

  // No open request is on its way, yet the sentinel says one is.
  predicate Stuck(s: State) { s.port.result.Busy? && Requests(s) == 0 }

  lemma StuckStep(s: State, step: Step)
    requires Rest(s.port) && Stuck(s) && Can(s, step)
    ensures Stuck(Do(s, step))
  {
    OpensPush(s.port.queue, SigClose);
    OpensPush(s.port.queue, SigFault);
    if step.Dispatch? {
      hide DoClose, DoFault;
      var q := s.port.(queue := s.port.queue[1..]);
      DoCloseResult(q, step.env);
      DoFaultResult(q, step.env);
    }
  }

  // Once stuck, always stuck: every later open is refused with BUSY, whatever is closed,
  // cancelled or reported in between.
  lemma {:induction false} StuckForever(states: seq<State>, steps: seq<Step>, i: nat, j: nat)
    requires IsRun(states, steps) && Init(states[0]) && i <= j < |states| && Stuck(states[i])
    ensures Stuck(states[j])
    decreases j
  {
    hide *;
    RunShape(states, steps);
    if i < j {
      StuckForever(states, steps, i, j - 1);
      RunKeepsRest(states, steps, j - 1);
      RunStep(states, steps, j - 1);
      StuckStep(states[j - 1], steps[j - 1]);
    }
  }

  // An Open is dispatched to a port that has no edge for it.
  predicate OpensInVain(s: State, step: Step) {
    step.Dispatch? && [SigOpen] <= s.port.queue && !ReadyToOpen(s.port)
  }

  lemma StuckEnters(s: State, step: Step)
    requires Rest(s.port) && SentinelInv(s) && Can(s, step) && !Stuck(s)
    ensures Stuck(Do(s, step)) <==> OpensInVain(s, step)
  {
    hide DoOpen, DoClose, DoFault;
    OpensPush(s.port.queue, SigOpen);
    OpensPush(s.port.queue, SigClose);
    OpensPush(s.port.queue, SigFault);
    if step.Dispatch? {
      if s.port.queue[0] == SigOpen {
        OpenLeavesQueue(s, step.env);
        OpenResolvesIff(s.port, step.env);
      } else {
        var q := s.port.(queue := s.port.queue[1..]);
        DoCloseResult(q, step.env);
        DoFaultResult(q, step.env);
      }
    }
  }

  ghost predicate OpenedInVain(states: seq<State>, steps: seq<Step>, i: nat)
    requires |states| == |steps| + 1 && i < |steps|
  {
    OpensInVain(states[i], steps[i])
  }

  lemma InitIsNotStuck(s: State)
    requires Init(s)
    ensures !Stuck(s)
  {}

  // For every caller: the sentinel is stuck if and only if some Open was dispatched to a port
  // that was neither closed nor faulted and had no latched fault.
  lemma {:induction false} StuckIff(states: seq<State>, steps: seq<Step>, k: nat)
    requires IsRun(states, steps) && Init(states[0]) && k < |states| && |states| == |steps| + 1
    ensures Stuck(states[k]) <==> exists i :: 0 <= i < k && OpenedInVain(states, steps, i)
  {
    hide IsRun, Init, Stuck, OpensInVain, Can, Do, Rest, SentinelInv;
    if k == 0 {
      InitIsNotStuck(states[0]);
    } else {
      StuckIff(states, steps, k - 1);
      RunKeepsRest(states, steps, k - 1);
      RunStep(states, steps, k - 1);
      if Stuck(states[k - 1]) {
        StuckStep(states[k - 1], steps[k - 1]);
      } else {
        StuckEnters(states[k - 1], steps[k - 1]);
        assert OpensInVain(states[k - 1], steps[k - 1]) ==> OpenedInVain(states, steps, k - 1);
      }
    }
  }

  // queue_open loads port_state before last_open_result. A second open started while the
  // first is queued can read CLOSED from before the dispatch and OK from after it.
  const SCRIPT: seq<Step> := [
    LoadForOpen, DecideOpen, SubmitOpen(true),
    LoadForOpen, Dispatch(Env(true, false, true)), DecideOpen, SubmitOpen(true),
    Dispatch(Env(true, false, true))]

  function PortAfter(k: nat): Port {
    if k <= 1 then Port(Closed, Closed, Failed, false, false, 0, 0, false, [], 0, 0, false)
    else if k == 2 then Port(Closed, Closed, Busy, false, false, 0, 0, false, [], 0, 0, false)
    else if k <= 4 then Port(Closed, Closed, Busy, false, false, 0, 0, false, [SigOpen], 0, 0, false)
    else if k == 5 then Port(Open, Open, Ok, false, false, 1, 1, true, [], 1, 0, false)
    else if k == 6 then Port(Open, Open, Busy, false, false, 1, 1, true, [], 1, 0, false)
    else if k == 7 then Port(Open, Open, Busy, false, false, 1, 1, true, [SigOpen], 1, 0, false)
    else Port(Open, Open, Busy, false, false, 1, 1, true, [], 1, 0, false)
  }

  function After(k: nat): State {
    State(PortAfter(k),
          if k == 1 || k == 4 || k == 5 then OpenLoaded(Closed)
          else if k == 2 || k == 6 then OpenStored else Outside,
          k >= 4)
  }

  lemma ScriptOpens()
    ensures DoOpen(PortAfter(4).(queue := []), Env(true, false, true)) == PortAfter(5)
    ensures DoOpen(PortAfter(7).(queue := []), Env(true, false, true)) == PortAfter(8)
  {
    hide FindEdge;
    var env := Env(true, false, true);
    var a := PortAfter(4).(queue := []);
    Fires(a, OnOpen, env);
    Fires(Transition(a, OnOpen, env), OnOpenDone, env);
    var b := PortAfter(7).(queue := []);
    Fires(b, OnOpen, env);
    Fires(b, OnOpenDone, env);
  }

  lemma ScriptStep(k: nat)
    requires k < |SCRIPT|
    ensures Can(After(k), SCRIPT[k]) && Do(After(k), SCRIPT[k]) == After(k + 1)
  {
    hide DoOpen;
    ScriptOpens();
    assert [SigOpen][1..] == [];
  }

  lemma ImpatientCallerGetsStuck() returns (states: seq<State>)
    ensures IsRun(states, SCRIPT) && Init(states[0])
    ensures Stuck(states[|SCRIPT|]) && states[|SCRIPT|].port.queue == [] && states[|SCRIPT|].abi.Outside?
  {
    states := seq(|SCRIPT| + 1, k requires k >= 0 => After(k));
    forall k | 0 <= k < |SCRIPT| ensures Advances(states, SCRIPT, k) { ScriptStep(k); }
  }
}
