// SerialAo of xcom_core/src/ao/xcom_ao.cpp: the one owner of the port. Its lifecycle is a
// table of twelve edges, driven by three actions that each run to completion.
module SerialAo {
  import opened Bytes

  datatype PortState = Closed | Opening | Open | Closing | Fault

  datatype Event = OnOpen | OnOpenDone | OnCancel | OnClose | OnCloseDone | OnFault

  datatype Action = OwnerOpen | OwnerClose | CancelClose | OpenCommit | OpenFail | CloseCommit

  // Control signals, in the order the Dispatcher will see them.
  datatype Signal = SigOpen | SigClose | SigFault

  // last_open_result. Busy is the sentinel of a request whose signal is still queued.
  datatype Outcome = Ok | Busy | Failed

  // `guarded` is the success guard of the OpenDone edge.
  datatype Edge = Edge(from: PortState, event: Event, guarded: bool, to: PortState,
                       action: Action, publishFirst: bool)

  const EDGES: seq<Edge> := [
    Edge(Closed,  OnOpen,      false, Opening, OwnerOpen,   true),
    Edge(Fault,   OnOpen,      false, Opening, OwnerOpen,   true),
    Edge(Opening, OnOpenDone,  true,  Open,    OpenCommit,  false),
    Edge(Opening, OnOpenDone,  false, Closed,  OpenFail,    false),
    Edge(Opening, OnCancel,    false, Closing, CancelClose, true),
    Edge(Open,    OnClose,     false, Closing, OwnerClose,  true),
    Edge(Fault,   OnClose,     false, Closing, OwnerClose,  true),
    Edge(Closing, OnClose,     false, Closing, OwnerClose,  true),
    Edge(Closing, OnCloseDone, false, Closed,  CloseCommit, false),
    Edge(Opening, OnFault,     false, Fault,   OwnerClose,  true),
    Edge(Open,    OnFault,     false, Fault,   OwnerClose,  true),
    Edge(Closing, OnFault,     false, Closed,  OwnerClose,  true)]

  datatype Port = Port(
    state: PortState,          // SerialCtx::state, the Dispatcher's own
    published: PortState,      // port_state, what every other thread reads
    result: Outcome,           // last_open_result
    cancel: bool,              // cancel_open
    faultPending: bool,        // fault_pending
    generation: nat,
    openGeneration: nat,
    live: bool,                // the native handle and its threads exist
    queue: seq<Signal>,
    opens: nat,                // history: how often SerialAo stored OPEN
    closes: nat,               // history: how often owner_close ran
    openedLive: bool)          // history: owner_open ran over a live session

  // What one action meets: the result of the native open, the cancel flag at the exchange,
  // and whether the Close signal of a cancelled open is accepted.
  datatype Env = Env(success: bool, cancelSeen: bool, closeAccepted: bool)

  predicate Matches(e: Edge, state: PortState, event: Event, result: Outcome) {
    e.from == state && e.event == event && (e.guarded ==> result.Ok?)
  }

  // The first row from `i` on that matches.
  function EdgeFrom(i: nat, state: PortState, event: Event, result: Outcome): (found: Option<Edge>)
    requires i <= |EDGES|
    ensures found.Some? ==> Matches(found.value, state, event, result)
    ensures found.None? ==> forall k :: i <= k < |EDGES| ==> !Matches(EDGES[k], state, event, result)
    decreases |EDGES| - i
  {
    if i == |EDGES| then None
    else if Matches(EDGES[i], state, event, result) then Some(EDGES[i])
    else EdgeFrom(i + 1, state, event, result)
  }

  function FindEdge(p: Port, event: Event): Option<Edge> { EdgeFrom(0, p.state, event, p.result) }

  function Publish(p: Port, state: PortState): Port {
    p.(state := state, published := state, opens := p.opens + (if state == Open then 1 else 0))
  }

  // The action of an edge and the state it really leads to.
  function RunAction(p: Port, action: Action, target: PortState, env: Env): (Port, PortState) {
    match action
    case OwnerOpen =>
      (p.(result := if env.success then Ok else Failed, live := p.live || env.success,
          openedLive := p.openedLive || p.live), target)
    case OwnerClose => (p.(live := false, closes := p.closes + 1), target)
    case CancelClose =>
      if env.closeAccepted then (p.(queue := p.queue + [SigClose]), target)
      else (p.(live := false, closes := p.closes + 1), Fault)
    case OpenCommit =>
      (p.(openGeneration := p.openGeneration + 1, generation := p.openGeneration + 1), target)
    case OpenFail => (p, target)
    case CloseCommit => (p.(generation := p.generation + 1), target)
  }

  function Take(p: Port, e: Edge, env: Env): Port {
    if e.publishFirst then
      var r := RunAction(Publish(p, e.to), e.action, e.to, env);
      if r.1 != e.to then Publish(r.0, r.1) else r.0
    else
      var r := RunAction(p, e.action, e.to, env);
      Publish(r.0, r.1)
  }

  function Transition(p: Port, event: Event, env: Env): Port {
    var e := FindEdge(p, event);
    if e.None? then p else Take(p, e.value, env)
  }

  // serial_reconcile_pending_fault
  function Reconcile(p: Port, env: Env): Port {
    if p.faultPending then Transition(p.(faultPending := false), OnFault, env) else p
  }

  function DoOpen(p: Port, env: Env): Port {
    var q := Transition(Reconcile(p, env), OnOpen, env);
    if !q.result.Ok? then Transition(q, OnOpenDone, env)
    else if env.cancelSeen then Transition(q.(cancel := false), OnCancel, env)
    else Transition(q.(cancel := false), OnOpenDone, env)
  }

  function DoClose(p: Port, env: Env): Port {
    Transition(Transition(p, OnClose, env), OnCloseDone, env).(faultPending := false)
  }

  function DoFault(p: Port, env: Env): Port {
    if p.state == Fault then p else Transition(p.(faultPending := false), OnFault, env)
  }

  // ---- what the table amounts to ---------------------------------------------------

  // Each transition as a case split, independent of the order of the rows.
  function Next(state: PortState, event: Event, result: Outcome): Option<(PortState, Action, bool)> {
    match event
    case OnOpen => if state == Closed || state == Fault then Some((Opening, OwnerOpen, true)) else None
    case OnOpenDone =>
      if state != Opening then None
      else if result.Ok? then Some((Open, OpenCommit, false)) else Some((Closed, OpenFail, false))
    case OnCancel => if state == Opening then Some((Closing, CancelClose, true)) else None
    case OnClose =>
      if state == Open || state == Fault || state == Closing then Some((Closing, OwnerClose, true)) else None
    case OnCloseDone => if state == Closing then Some((Closed, CloseCommit, false)) else None
    case OnFault =>
      if state == Opening || state == Open then Some((Fault, OwnerClose, true))
      else if state == Closing then Some((Closed, OwnerClose, true)) else None
  }

  predicate FirstMatch(k: nat, i: nat, state: PortState, event: Event, result: Outcome) {
    && i <= k < |EDGES| && Matches(EDGES[k], state, event, result)
    && forall j :: i <= j < k ==> !Matches(EDGES[j], state, event, result)
  }

  lemma {:induction false} EdgeIsFirstMatch(i: nat, state: PortState, event: Event, result: Outcome) returns (k: nat)
    requires i <= |EDGES| && EdgeFrom(i, state, event, result).Some?
    ensures FirstMatch(k, i, state, event, result) && EDGES[k] == EdgeFrom(i, state, event, result).value
    decreases |EDGES| - i
  {
    hide Matches;
    k := i;
    if !Matches(EDGES[i], state, event, result) { k := EdgeIsFirstMatch(i + 1, state, event, result); }
  }

  predicate RowIs(e: Edge, n: Option<(PortState, Action, bool)>) { n == Some((e.to, e.action, e.publishFirst)) }

  lemma FirstRowsAreNext(k: nat, state: PortState, event: Event, result: Outcome)
    requires k < 6 && Matches(EDGES[k], state, event, result)
    requires forall j :: 0 <= j < k ==> !Matches(EDGES[j], state, event, result)
    ensures RowIs(EDGES[k], Next(state, event, result))
  {
    if k == 3 { assert !Matches(EDGES[2], state, event, result); }
  }

  lemma LastRowsAreNext(k: nat, state: PortState, event: Event, result: Outcome)
    requires 6 <= k < |EDGES| && Matches(EDGES[k], state, event, result)
    ensures RowIs(EDGES[k], Next(state, event, result))
  {}

  lemma NextIsARow(state: PortState, event: Event, result: Outcome)
    requires Next(state, event, result).Some?
    ensures exists k :: 0 <= k < |EDGES| && Matches(EDGES[k], state, event, result)
  {
    match event
    case OnOpen => assert Matches(EDGES[if state == Closed then 0 else 1], state, event, result);
    case OnOpenDone => assert Matches(EDGES[3], state, event, result);
    case OnCancel => assert Matches(EDGES[4], state, event, result);
    case OnClose => assert Matches(EDGES[if state == Open then 5 else if state == Fault then 6 else 7], state, event, result);
    case OnCloseDone => assert Matches(EDGES[8], state, event, result);
    case OnFault => assert Matches(EDGES[if state == Opening then 9 else if state == Open then 10 else 11], state, event, result);
  }

  // Scanning the rows in order finds exactly the edge of the case split.
  lemma TableIsNext(p: Port, event: Event)
    ensures
      var e, n := FindEdge(p, event), Next(p.state, event, p.result);
      && (e.Some? <==> n.Some?)
      && (e.Some? ==> RowIs(e.value, n))
  {
    hide EdgeFrom, Next, Matches, RowIs;
    var e := FindEdge(p, event);
    if e.Some? {
      var k := EdgeIsFirstMatch(0, p.state, event, p.result);
      if k < 6 { FirstRowsAreNext(k, p.state, event, p.result); } else { LastRowsAreNext(k, p.state, event, p.result); }
      RowHasNext(e.value, Next(p.state, event, p.result));
    } else if Next(p.state, event, p.result).Some? {
      NextIsARow(p.state, event, p.result);
    }
  }

  lemma RowHasNext(e: Edge, n: Option<(PortState, Action, bool)>)
    requires RowIs(e, n)
    ensures n.Some?
  {}

  lemma Fires(p: Port, event: Event, env: Env)
    ensures
      var n := Next(p.state, event, p.result);
      && (n.None? ==> Transition(p, event, env) == p)
      && (n.Some? ==> exists guarded: bool ::
            Transition(p, event, env) == Take(p, Edge(p.state, event, guarded, n.value.0, n.value.1, n.value.2), env))
  {
    TableIsNext(p, event);
    var e := FindEdge(p, event);
    if e.Some? { assert e.value == Edge(p.state, event, e.value.guarded, e.value.to, e.value.action, e.value.publishFirst); }
  }

  // ---- between actions ----------------------------------------------------------------

  predicate Settled(p: Port) {
    && p.state != Opening
    && (p.live <==> p.state == Open || p.state == Closing)
    && (p.published == p.state || (p.published == Fault && p.faultPending))
    && (p.faultPending ==> p.live)
    && (p.state == Open ==> p.generation == p.openGeneration)
    && p.opens == p.openGeneration
    && !p.openedLive
  }

  // The rest-state invariant: in addition, a closing port has its Close on the way.
  predicate Rest(p: Port) { Settled(p) && (p.state == Closing ==> SigClose in p.queue) }

  // A dispatched Open finds an Open edge, once a latched fault is reconciled.
  predicate ReadyToOpen(p: Port) { p.state == Closed || p.state == Fault || p.faultPending }

  lemma ReconcileResult(p: Port, env: Env)
    requires Settled(p)
    ensures
      var q := Reconcile(p, env);
      && Settled(q) && !q.faultPending
      && (p.faultPending ==> (q.state == Closed || q.state == Fault) && q.closes == p.closes + 1)
      && (!p.faultPending ==> q == p)
      && q == p.(state := q.state, published := q.published, faultPending := false, live := q.live, closes := q.closes)
  {
    hide FindEdge;
    Fires(p.(faultPending := false), OnFault, env);
  }

  function Opened(p: Port, env: Env): Port {
    var q := Transition(p, OnOpen, env);
    if !q.result.Ok? then Transition(q, OnOpenDone, env)
    else if env.cancelSeen then Transition(q.(cancel := false), OnCancel, env)
    else Transition(q.(cancel := false), OnOpenDone, env)
  }

  lemma OpenedResult(p: Port, env: Env)
    requires Settled(p) && !p.faultPending
    ensures
      var q := Opened(p, env);
      && Settled(q) && q.closes >= p.closes
      && (q.queue == p.queue || (q.state == Closing && q.queue == p.queue + [SigClose]))
      && (p.state == Open || p.state == Closing ==> q == p.(cancel := q.cancel))
      && (p.state == Closed || p.state == Fault ==>
            && q.result == (if env.success then Ok else Failed)
            && (q.state == Open <==> env.success && !env.cancelSeen)
            && (q.state == Closed <==> !env.success)
            && (q.state == Closing <==> env.success && env.cancelSeen && env.closeAccepted)
            && (q.state == Closing ==> q.queue == p.queue + [SigClose])
            && q.openGeneration == p.openGeneration + (if q.state == Open then 1 else 0))
  {
    hide FindEdge;
    Fires(p, OnOpen, env);
    var b := Transition(p, OnOpen, env);
    Fires(b, OnOpenDone, env);
    Fires(b.(cancel := false), OnCancel, env);
    Fires(b.(cancel := false), OnOpenDone, env);
  }

  lemma OpenIsOpened(p: Port, env: Env)
    ensures DoOpen(p, env) == Opened(Reconcile(p, env), env)
  {}

  // What a dispatched Open does. It is decided by whether an edge is found, by the native
  // open, and by the cancel flag, in this order.
  lemma DoOpenResult(p: Port, env: Env)
    requires Settled(p)
    ensures
      var q := DoOpen(p, env);
      && Settled(q) && q.closes >= p.closes + (if p.faultPending then 1 else 0)
      && (q.queue == p.queue || (q.state == Closing && q.queue == p.queue + [SigClose]))
      && (!ReadyToOpen(p) ==> q == p.(cancel := q.cancel))
      && (ReadyToOpen(p) ==>
            && q.result == (if env.success then Ok else Failed)
            && (q.state == Open <==> env.success && !env.cancelSeen)
            && (q.state == Closed <==> !env.success)
            && (q.state == Closing <==> env.success && env.cancelSeen && env.closeAccepted)
            && (q.state == Closing ==> q.queue == p.queue + [SigClose])
            && q.openGeneration == p.openGeneration + (if q.state == Open then 1 else 0))
      && (env.cancelSeen ==> q.opens == p.opens)
  {
    hide DoOpen, Reconcile, Opened;
    OpenIsOpened(p, env);
    ReconcileResult(p, env);
    var a := Reconcile(p, env);
    OpenedResult(a, env);
  }

  // A dispatched Close always ends CLOSED, with nothing latched and nothing live.
  lemma DoCloseResult(p: Port, env: Env)
    requires Settled(p)
    ensures
      var q := DoClose(p, env);
      && Settled(q) && q.state == Closed && q.published == Closed && !q.live && !q.faultPending
      && q.queue == p.queue && q.result == p.result && q.openGeneration == p.openGeneration && q.cancel == p.cancel
  {
    hide FindEdge;
    Fires(p, OnClose, env);
    Fires(Transition(p, OnClose, env), OnCloseDone, env);
  }

  lemma DoFaultResult(p: Port, env: Env)
    requires Settled(p)
    ensures
      var q := DoFault(p, env);
      && Settled(q) && !q.live && !q.faultPending && q.published == q.state
      && q.state == (if p.state == Closing then Closed else if p.state == Open then Fault else p.state)
      && q.queue == p.queue && q.result == p.result && q.openGeneration == p.openGeneration && q.cancel == p.cancel
  {
    hide FindEdge;
    Fires(p.(faultPending := false), OnFault, env);
  }

  // While a session is live, only owner_close ends it or changes its generation.
  predicate SameSession(p: Port, q: Port) {
    q.live && q.state == p.state && q.generation == p.generation && q.openGeneration == p.openGeneration
  }

  lemma SessionEndsByClose(p: Port, env: Env)
    requires Settled(p) && p.live
    ensures SameSession(p, DoOpen(p, env)) || DoOpen(p, env).closes > p.closes
    ensures DoClose(p, env).closes > p.closes
    ensures DoFault(p, env).closes > p.closes
  {
    hide FindEdge, DoOpen;
    DoOpenResult(p, env);
    Fires(p.(faultPending := false), OnFault, env);
    Fires(p, OnClose, env);
    Fires(Transition(p, OnClose, env), OnCloseDone, env);
  }

  // ---- the class -----------------------------------------------------------------------

  class Ao {
    var port: Port

    constructor ()
      ensures port == Port(Closed, Closed, Failed, false, false, 0, 0, false, [], 0, 0, false)
    {
      port := Port(Closed, Closed, Failed, false, false, 0, 0, false, [], 0, 0, false);
    }

    // serial_find_edge: scan the rows, stop at the first that matches.
    method Find(event: Event) returns (found: Option<Edge>)
      ensures found == FindEdge(port, event)
    {
      found := None;
      var i := 0;
      while i < |EDGES|
        invariant 0 <= i <= |EDGES| && found == None
        invariant FindEdge(port, event) == EdgeFrom(i, port.state, event, port.result)
      {
        var e := EDGES[i];
        if e.from == port.state && e.event == event && (e.guarded ==> port.result.Ok?) {
          found := Some(e);
          break;
        }
        i := i + 1;
      }
    }

    method Store(state: PortState)
      modifies this
      ensures port == Publish(old(port), state)
    {
      port := port.(state := state, published := state, opens := port.opens + (if state.Open? then 1 else 0));
    }

    // serial_run_action
    method Run(action: Action, target: PortState, env: Env) returns (outcome: PortState)
      modifies this
      ensures (port, outcome) == RunAction(old(port), action, target, env)
    {
      outcome := target;
      match action {
        case OwnerOpen =>
          port := port.(openedLive := port.openedLive || port.live);
          port := port.(live := port.live || env.success, result := if env.success then Ok else Failed);
        case OwnerClose =>
          port := port.(live := false, closes := port.closes + 1);
        case CancelClose =>
          if env.closeAccepted {
            port := port.(queue := port.queue + [SigClose]);
          } else {
            port := port.(live := false, closes := port.closes + 1);
            outcome := Fault;
          }
        case OpenCommit =>
          port := port.(openGeneration := port.openGeneration + 1);
          port := port.(generation := port.openGeneration);
        case OpenFail =>
        case CloseCommit =>
          port := port.(generation := port.generation + 1);
      }
    }

    // serial_transition
    method Fire(event: Event, env: Env)
      modifies this
      ensures port == Transition(old(port), event, env)
    {
      var edge := Find(event);
      if edge.Some? {
        var e := edge.value;
        var outcome;
        if e.publishFirst {
          Store(e.to);
          outcome := Run(e.action, e.to, env);
          if outcome != e.to { Store(outcome); }
        } else {
          outcome := Run(e.action, e.to, env);
          Store(outcome);
        }
      }
    }

    method ReconcileFault(env: Env)
      modifies this
      ensures port == Reconcile(old(port), env)
    {
      var pending := port.faultPending;
      port := port.(faultPending := false);
      if pending { Fire(OnFault, env); }
    }

    method HandleOpen(env: Env)
      requires Settled(port)
      modifies this
      ensures port == DoOpen(old(port), env) && Settled(port)
    {
      DoOpenResult(port, env);
      ReconcileFault(env);
      Fire(OnOpen, env);
      if !port.result.Ok? {
        Fire(OnOpenDone, env);
      } else {
        port := port.(cancel := false);
        if env.cancelSeen { Fire(OnCancel, env); } else { Fire(OnOpenDone, env); }
      }
    }

    method HandleClose(env: Env)
      requires Settled(port)
      modifies this
      ensures port == DoClose(old(port), env) && Settled(port) && port.published == Closed
    {
      DoCloseResult(port, env);
      Fire(OnClose, env);
      Fire(OnCloseDone, env);
      port := port.(faultPending := false);
    }

    method HandleFault(env: Env)
      requires Settled(port)
      modifies this
      ensures port == DoFault(old(port), env) && Settled(port)
    {
      DoFaultResult(port, env);
      if port.state != Fault {
        port := port.(faultPending := false);
        Fire(OnFault, env);
      }
    }
  }
}
