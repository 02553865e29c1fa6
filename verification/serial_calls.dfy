// What the calls of the lifecycle ABI achieve: queue_open and xcom_close of
// xcom_core/src/abi/xcom_abi.cpp from the caller's first load to the dispatch of the signal,
// a cancelled wait, and a fault whose signal was refused.
module SerialCalls {
  import opened SerialAo
  import opened SerialSystem

  // The Dispatcher runs the next |envs| signals and gets from s to t.
  ghost predicate Dispatched(s: State, envs: seq<Env>, t: State)
    decreases |envs|
  {
    if envs == [] then t == s
    else s.port.queue != [] && Dispatched(Do(s, Dispatch(envs[0])), envs[1..], t)
  }

  // One signal leaves the queue at the front; a cancelled open may add a Close at the end.
  lemma DispatchMovesQueue(s: State, env: Env)
    requires Rest(s.port) && s.port.queue != []
    ensures
      var t := Do(s, Dispatch(env));
      Rest(t.port) && t.abi == s.abi && s.port.queue[1..] <= t.port.queue
  {
    hide DoOpen, DoClose, DoFault;
    StepKeepsRest(s, Dispatch(env));
    var q := s.port.(queue := s.port.queue[1..]);
    DoOpenResult(q, env);
    DoCloseResult(q, env);
    DoFaultResult(q, env);
  }

  lemma {:induction false} QueueCanBeDispatched(s: State, envs: seq<Env>) returns (t: State)
    requires Rest(s.port) && |envs| <= |s.port.queue|
    ensures Dispatched(s, envs, t)
    decreases |envs|
  {
    hide Do, Rest;
    if envs == [] {
      t := s;
    } else {
      DispatchMovesQueue(s, envs[0]);
      t := QueueCanBeDispatched(Do(s, Dispatch(envs[0])), envs[1..]);
    }
  }

  // ---- xcom_close -----------------------------------------------------------------------

  // A dispatched signal that finds a session live leaves it live or has run owner_close.
  lemma DispatchCloses(s: State, env: Env)
    requires Rest(s.port) && s.port.queue != []
    ensures
      var p, q := s.port, Do(s, Dispatch(env)).port;
      && q.closes >= p.closes
      && (p.live && !q.live ==> q.closes > p.closes)
      && (p.queue[0] == SigClose ==> ClosedPort(q))
      && (p.queue[0] == SigFault ==> !q.live && !q.faultPending && q.published == q.state)
  {
    hide DoOpen, DoClose, DoFault;
    var q := s.port.(queue := s.port.queue[1..]);
    ClosesGrow(q, env);
    DoCloseResult(q, env);
    DoFaultResult(q, env);
    if q.live { SessionEndsByClose(q, env); }
  }

  lemma ClosesGrow(p: Port, env: Env)
    requires Settled(p)
    ensures DoOpen(p, env).closes >= p.closes && DoClose(p, env).closes >= p.closes && DoFault(p, env).closes >= p.closes
  {
    hide FindEdge, DoOpen;
    DoOpenResult(p, env);
    Fires(p, OnClose, env);
    Fires(Transition(p, OnClose, env), OnCloseDone, env);
    Fires(p.(faultPending := false), OnFault, env);
  }

  predicate ClosedPort(p: Port) { p.state == Closed && p.published == Closed && !p.live && !p.faultPending }

  // The last signal dispatched is a Close or a Fault.
  lemma {:induction false} EndIsReached(s: State, envs: seq<Env>, t: State)
    requires Rest(s.port) && 0 < |envs| <= |s.port.queue| && s.port.queue[|envs| - 1] != SigOpen
    requires Dispatched(s, envs, t)
    ensures s.port.queue[|envs| - 1] == SigClose ==> ClosedPort(t.port)
    ensures !t.port.live && t.port.published == t.port.state && t.port.closes >= s.port.closes
    ensures s.port.live ==> t.port.closes > s.port.closes
    decreases |envs|
  {
    hide Do, Rest;
    DispatchMovesQueue(s, envs[0]);
    DispatchCloses(s, envs[0]);
    var m := Do(s, Dispatch(envs[0]));
    if |envs| > 1 {
      assert m.port.queue[|envs| - 2] == s.port.queue[1..][|envs| - 2];
      EndIsReached(m, envs[1..], t);
    } else {
      assert envs[1..] == [];
    }
  }

  // The caller's three steps, undisturbed: load port_state, decide, submit.
  function DecidedClose(s: State): State
    requires s.abi.Outside?
  {
    Do(Do(s, LoadForClose), DecideClose)
  }

  // xcom_close returns at once exactly on a port that reads CLOSED with no open pending, and
  // then nothing is live. Otherwise it queues one Close behind what is there, asks a pending
  // open to cancel, and once the queue as it stands has been dispatched, whatever the native
  // calls did, the port reads CLOSED, nothing is live, and owner_close has run if a session was.
  lemma CloseCallCloses(states: seq<State>, steps: seq<Step>, envs: seq<Env>, t: State)
    requires IsRun(states, steps) && Init(states[0]) && |states| == |steps| + 1 && states[|steps|].abi.Outside?
    ensures
      var s := states[|steps|];
      var b := DecidedClose(s);
      && (b.abi.Outside? <==> s.port.published == Closed && !s.port.result.Busy?)
      && (b.abi.Outside? ==> b == s && !s.port.live)
      && (!b.abi.Outside? ==>
            && Can(b, SubmitClose(true))
            && var c := Do(b, SubmitClose(true));
            && c.port == s.port.(queue := s.port.queue + [SigClose], cancel := c.port.cancel)
            && (s.port.result.Busy? || s.port.published == Opening ==> c.port.cancel)
            && (|envs| == |c.port.queue| && Dispatched(c, envs, t) ==>
                  ClosedPort(t.port) && (s.port.live ==> t.port.closes > s.port.closes)))
  {
    RunKeepsRest(states, steps, |steps|);
    var s := states[|steps|];
    var b := DecidedClose(s);
    if !b.abi.Outside? {
      var c := Do(b, SubmitClose(true));
      StepKeepsRest(b, SubmitClose(true));
      if |envs| == |c.port.queue| && Dispatched(c, envs, t) { EndIsReached(c, envs, t); }
    }
  }

  // ---- queue_open -----------------------------------------------------------------------

  lemma ReadyStays(s: State, env: Env)
    requires Rest(s.port) && ReadyToOpen(s.port) && s.port.queue != [] && s.port.queue[0] != SigOpen
    ensures
      var p, q := s.port, Do(s, Dispatch(env)).port;
      ReadyToOpen(q) && q.openGeneration == p.openGeneration && q.queue == p.queue[1..]
  {
    hide DoClose, DoFault;
    var q := s.port.(queue := s.port.queue[1..]);
    DoCloseResult(q, env);
    DoFaultResult(q, env);
  }

  // How a dispatched Open leaves the port: p before, q after, e what it met.
  predicate OpenedPort(p: Port, q: Port, e: Env) {
    && q.result == (if e.success then Ok else Failed)
    && (q.published == Open <==> e.success && !e.cancelSeen)
    && (q.published == Open ==> q.state == Open && q.live && q.openGeneration == p.openGeneration + 1)
    && (q.published == Closed <==> !e.success)
  }

  lemma OpenDispatched(s: State, env: Env)
    requires Rest(s.port) && ReadyToOpen(s.port) && s.port.queue != [] && s.port.queue[0] == SigOpen
    ensures OpenedPort(s.port, Do(s, Dispatch(env)).port, env)
  {
    hide DoOpen;
    DoOpenResult(s.port.(queue := s.port.queue[1..]), env);
    OpenClearsLatch(s.port.(queue := s.port.queue[1..]), env);
  }

  // An Open that finds an edge leaves no latched fault.
  lemma OpenClearsLatch(p: Port, env: Env)
    requires Settled(p) && ReadyToOpen(p)
    ensures DoOpen(p, env).published == DoOpen(p, env).state
  {
    hide FindEdge, Reconcile;
    ReconcileResult(p, env);
    var a := Reconcile(p, env);
    Fires(a, OnOpen, env);
    var b := Transition(a, OnOpen, env);
    Fires(b, OnOpenDone, env);
    Fires(b.(cancel := false), OnCancel, env);
    Fires(b.(cancel := false), OnOpenDone, env);
  }

  lemma {:induction false} OpenIsReached(s: State, envs: seq<Env>, t: State)
    requires Rest(s.port) && ReadyToOpen(s.port) && 0 < |envs| == |s.port.queue|
    requires s.port.queue[|envs| - 1] == SigOpen && SigOpen !in s.port.queue[..|envs| - 1]
    requires Dispatched(s, envs, t)
    ensures OpenedPort(s.port, t.port, envs[|envs| - 1])
    decreases |envs|
  {
    hide Do, Rest, OpenedPort;
    DispatchMovesQueue(s, envs[0]);
    var m := Do(s, Dispatch(envs[0]));
    if |envs| > 1 {
      assert s.port.queue[0] in s.port.queue[..|envs| - 1];
      ReadyStays(s, envs[0]);
      assert m.port.queue[..|envs| - 2] == s.port.queue[..|envs| - 1][1..];
      OpenIsReached(m, envs[1..], t);
      SameBefore(s.port, m.port, t.port, envs[|envs| - 1]);
    } else {
      assert envs[1..] == [];
      OpenDispatched(s, envs[0]);
    }
  }

  lemma SameBefore(p: Port, m: Port, q: Port, e: Env)
    requires OpenedPort(m, q, e) && m.openGeneration == p.openGeneration
    ensures OpenedPort(p, q, e)
  {}

  lemma {:induction false} NoOpens(queue: seq<Signal>)
    requires Opens(queue) == 0
    ensures SigOpen !in queue
  {
    if queue != [] {
      NoOpens(queue[1..]);
      assert queue == [queue[0]] + queue[1..];
    }
  }

  function DecidedOpen(s: State): State
    requires s.abi.Outside?
  {
    Do(Do(s, LoadForOpen), DecideOpen)
  }

  // queue_open, undisturbed, refuses exactly a pending open and a port that reads neither
  // CLOSED nor FAULT, and then changes nothing. Otherwise its Open is queued with the sentinel
  // set and the cancel flag clear, and dispatching the queue as it stands opens the port
  // exactly on native success without a cancel, with the native result for the caller.
  lemma OpenCallOpens(states: seq<State>, steps: seq<Step>, envs: seq<Env>, t: State)
    requires IsRun(states, steps) && Init(states[0]) && |states| == |steps| + 1 && states[|steps|].abi.Outside?
    ensures
      var s := states[|steps|];
      var b := DecidedOpen(s);
      && (b.abi.Outside? <==> s.port.result.Busy? || (s.port.published != Closed && s.port.published != Fault))
      && (b.abi.Outside? ==> b.port == s.port)
      && (!b.abi.Outside? ==>
            && Can(b, SubmitOpen(true))
            && var c := Do(b, SubmitOpen(true));
            && c.port == s.port.(queue := s.port.queue + [SigOpen], result := Busy, cancel := false)
            && (|envs| == |c.port.queue| && Dispatched(c, envs, t) ==>
                  OpenedPort(s.port, t.port, envs[|envs| - 1])))
  {
    RunKeepsRest(states, steps, |steps|);
    var s := states[|steps|];
    var b := DecidedOpen(s);
    if !b.abi.Outside? {
      var c := Do(b, SubmitOpen(true));
      NoOpens(s.port.queue);
      assert c.port.queue[..|s.port.queue|] == s.port.queue;
      if |envs| == |c.port.queue| && Dispatched(c, envs, t) {
        OpenIsReached(c, envs, t);
        SameBefore(s.port, c.port, t.port, envs[|envs| - 1]);
      }
    }
  }

  // ---- a wait given up ----------------------------------------------------------------------

  predicate DispatchesOpen(s: State, step: Step) { step.Dispatch? && [SigOpen] <= s.port.queue }

  lemma CancelStays(s: State, step: Step)
    requires Rest(s.port) && SentinelInv(s) && Can(s, step) && Requests(s) == 1 && s.port.cancel
    requires !DispatchesOpen(s, step) && step != SubmitOpen(false)
    ensures Requests(Do(s, step)) == 1 && Do(s, step).port.cancel
  {
    hide DoOpen, DoClose, DoFault;
    OpensPush(s.port.queue, SigOpen);
    OpensPush(s.port.queue, SigClose);
    OpensPush(s.port.queue, SigFault);
    if step.Dispatch? {
      var q := s.port.(queue := s.port.queue[1..]);
      DoCloseResult(q, step.env);
      DoFaultResult(q, step.env);
    }
  }

  ghost predicate StillPending(states: seq<State>, steps: seq<Step>, i: nat, j: nat)
    requires |states| == |steps| + 1 && i <= j < |states|
  {
    forall m :: i <= m < j ==> !DispatchesOpen(states[m], steps[m]) && steps[m] != SubmitOpen(false)
  }

  lemma {:induction false} CancelIsNotLost(states: seq<State>, steps: seq<Step>, i: nat, j: nat)
    requires IsRun(states, steps) && Init(states[0]) && |states| == |steps| + 1 && i <= j < |states|
    requires Requests(states[i]) == 1 && states[i].port.cancel && StillPending(states, steps, i, j)
    ensures Requests(states[j]) == 1 && states[j].port.cancel
    decreases j
  {
    hide IsRun, Init, Can, Do, Rest, SentinelInv, Requests, DispatchesOpen;
    if i < j {
      CancelIsNotLost(states, steps, i, j - 1);
      RunKeepsRest(states, steps, j - 1);
      RunStep(states, steps, j - 1);
      CancelStays(states[j - 1], steps[j - 1]);
    }
  }

  // A caller that gives up on an open which is still on its way: the flag is there when the
  // Open is dispatched, and if the exchange finds it the port never reads OPEN from it.
  lemma GivenUpOpenStaysShut(states: seq<State>, steps: seq<Step>, i: nat, j: nat)
    requires IsRun(states, steps) && Init(states[0]) && |states| == |steps| + 1 && i < j < |steps|
    requires steps[i] == GiveUpWaiting && Requests(states[i]) == 1 && StillPending(states, steps, i, j)
    requires DispatchesOpen(states[j], steps[j])
    ensures states[j].port.cancel
    ensures steps[j].env.cancelSeen == states[j].port.cancel ==> states[j + 1].port.opens == states[j].port.opens
  {
    RunStep(states, steps, i);
    CancelIsNotLost(states, steps, i + 1, j);
    if steps[j].env.cancelSeen { CancelledOpenIsNotPublished(states, steps, j); }
  }

  // ---- a fault -----------------------------------------------------------------------

  // A fault whose signal is accepted ends the session: once the queue as it stands has been
  // dispatched nothing is live, owner_close has run, and the port reads what it is.
  lemma FaultEndsSession(states: seq<State>, steps: seq<Step>, envs: seq<Env>, t: State)
    requires IsRun(states, steps) && Init(states[0]) && |states| == |steps| + 1
    requires Can(states[|steps|], ReportFault(true))
    ensures
      var s := states[|steps|];
      var c := Do(s, ReportFault(true));
      && |c.port.queue| == |s.port.queue| + 1
      && (|envs| == |c.port.queue| && Dispatched(c, envs, t) ==>
            !t.port.live && t.port.closes > s.port.closes && t.port.published == t.port.state != Open)
  {
    RunKeepsRest(states, steps, |steps|);
    var s := states[|steps|];
    var c := Do(s, ReportFault(true));
    StepKeepsRest(s, ReportFault(true));
    if |envs| == |c.port.queue| && Dispatched(c, envs, t) {
      EndIsReached(c, envs, t);
      DispatchedRests(c, envs, t);
    }
  }

  lemma {:induction false} DispatchedRests(s: State, envs: seq<Env>, t: State)
    requires Rest(s.port) && Dispatched(s, envs, t)
    ensures Rest(t.port)
    decreases |envs|
  {
    hide Do, Rest;
    if envs != [] {
      DispatchMovesQueue(s, envs[0]);
      DispatchedRests(Do(s, Dispatch(envs[0])), envs[1..], t);
    }
  }

  predicate Latched(p: Port) { p.published == Fault && p.faultPending && p.live }

  lemma LatchStays(s: State, step: Step)
    requires Rest(s.port) && Latched(s.port) && Can(s, step)
    ensures Latched(Do(s, step).port) || Do(s, step).port.closes > s.port.closes
    ensures Do(s, step).port.closes >= s.port.closes
  {
    hide DoOpen, DoClose, DoFault;
    if step.Dispatch? {
      var q := s.port.(queue := s.port.queue[1..]);
      DoOpenResult(q, step.env);
      SessionEndsByClose(q, step.env);
    }
  }

  lemma StepClosesGrow(s: State, step: Step)
    requires Rest(s.port) && Can(s, step)
    ensures Do(s, step).port.closes >= s.port.closes
  {
    hide DoOpen, DoClose, DoFault;
    if step.Dispatch? { ClosesGrow(s.port.(queue := s.port.queue[1..]), step.env); }
  }

  // A fault whose signal is refused is not lost: from that step on the port reads FAULT with
  // the fault latched until owner_close has released the session.
  lemma {:induction false} RefusedFaultIsKept(states: seq<State>, steps: seq<Step>, i: nat, j: nat)
    requires IsRun(states, steps) && Init(states[0]) && |states| == |steps| + 1 && i < j < |states|
    requires steps[i] == ReportFault(false)
    ensures Latched(states[j].port) || states[j].port.closes > states[i].port.closes
    ensures states[j].port.closes >= states[i].port.closes
    decreases j
  {
    hide IsRun, Init, Rest, Latched, Can, Do;
    RunKeepsRest(states, steps, j - 1);
    RunStep(states, steps, j - 1);
    if i == j - 1 {
      FaultLatches(states[i]);
    } else {
      RefusedFaultIsKept(states, steps, i, j - 1);
      StepClosesGrow(states[j - 1], steps[j - 1]);
      if Latched(states[j - 1].port) { LatchStays(states[j - 1], steps[j - 1]); }
    }
  }

  lemma FaultLatches(s: State)
    requires Can(s, ReportFault(false))
    ensures Latched(Do(s, ReportFault(false)).port) && Do(s, ReportFault(false)).port.closes == s.port.closes
  {}
}
