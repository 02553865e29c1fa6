// Exactly-once completions of xcom_core/src/io/log_writer.cpp: the ABI caller reserves a
// completion before it queues a request, the writer thread publishes one for each request it
// pops, and the caller takes them in order.
module Completions {
  import opened Bytes

  const CAPACITY := 32               // kCompletionCapacity, also the completion ring's size
  const JOBS := 16                   // kFileJobCapacity

  datatype Caller = Idle | Reserved(id: nat) | Undoing | Taken(id: nat)

  datatype State = State(
    pending: int,                    // pending_completions
    caller: Caller,
    queue: seq<nat>,                 // jobs: requests waiting for the writer
    running: Option<nat>,            // the request in process()
    ring: seq<nat>,                  // completions: published, not yet taken
    accepted: seq<nat>,              // history: requests whose submission returned XCOM_OK
    delivered: seq<nat>)             // history: completions returned to the caller

  datatype Action =
    | Reserve(id: nat)               // reserve_completion, below the capacity
    | Enqueue                        // block found, job queued
    | Refuse                         // no block, or the queue refused the job
    | ReleaseReservation
    | Pop                            // the writer takes a job, or cancels it at shutdown
    | Finish                         // finish(): the asserted push
    | TakePop                        // take_completion pops the ring
    | TakeRelease                    // and then releases the reservation

  predicate Can(s: State, a: Action) {
    match a
    case Reserve(_) => s.caller.Idle? && s.pending < CAPACITY
    case Enqueue => s.caller.Reserved? && |s.queue| < JOBS
    case Refuse => s.caller.Reserved?
    case ReleaseReservation => s.caller.Undoing?
    case Pop => s.running.None? && s.queue != []
    case Finish => s.running.Some?
    case TakePop => s.caller.Idle? && s.ring != []
    case TakeRelease => s.caller.Taken?
  }

  function Do(s: State, a: Action): State
    requires Can(s, a)
  {
    match a
    case Reserve(id) => s.(pending := s.pending + 1, caller := Reserved(id))
    case Enqueue => s.(caller := Idle, queue := s.queue + [s.caller.id], accepted := s.accepted + [s.caller.id])
    case Refuse => s.(caller := Undoing)
    case ReleaseReservation => s.(pending := s.pending - 1, caller := Idle)
    case Pop => s.(running := Some(s.queue[0]), queue := s.queue[1..])
    case Finish => s.(running := None, ring := s.ring + [s.running.value])
    case TakePop => s.(caller := Taken(s.ring[0]), ring := s.ring[1..])
    case TakeRelease => s.(pending := s.pending - 1, caller := Idle, delivered := s.delivered + [s.caller.id])
  }

  predicate Init(s: State) { s == State(0, Idle, [], None, [], [], []) }

  function Running(s: State): seq<nat> { if s.running.Some? then [s.running.value] else [] }

  function InHand(s: State): seq<nat> { if s.caller.Taken? then [s.caller.id] else [] }

  predicate Inv(s: State) {
    && s.accepted == s.delivered + InHand(s) + s.ring + Running(s) + s.queue
    && s.pending == |InHand(s)| + |s.ring| + |Running(s)| + |s.queue|
                    + (if s.caller.Reserved? || s.caller.Undoing? then 1 else 0)
    && s.pending <= CAPACITY
  }

  lemma StepKeepsInv(s: State, a: Action)
    requires Inv(s) && Can(s, a)
    ensures Inv(Do(s, a))
  {}

  ghost predicate Advances(states: seq<State>, actions: seq<Action>, k: nat)
    requires |states| == |actions| + 1 && k < |actions|
  {
    Can(states[k], actions[k]) && states[k + 1] == Do(states[k], actions[k])
  }

  ghost predicate IsRun(states: seq<State>, actions: seq<Action>) {
    && |states| == |actions| + 1
    && forall k :: 0 <= k < |actions| ==> Advances(states, actions, k)
  }

  lemma {:induction false} RunKeepsInv(states: seq<State>, actions: seq<Action>, k: nat)
    requires IsRun(states, actions) && Init(states[0]) && k < |states|
    ensures Inv(states[k])
  {
    if k > 0 {
      assert Advances(states, actions, k - 1);
      RunKeepsInv(states, actions, k - 1);
      StepKeepsInv(states[k - 1], actions[k - 1]);
    }
  }

  // Every accepted request completes exactly once and in order: what the caller has been
  // given is the front of what was accepted, the rest is in its hand, on the ring, running or
  // queued, at most 32 in all, and the asserted push always finds room.
  lemma ExactlyOnce(states: seq<State>, actions: seq<Action>, k: nat)
    requires IsRun(states, actions) && Init(states[0]) && k < |states|
    ensures
      var s := states[k];
      && s.accepted == s.delivered + InHand(s) + s.ring + Running(s) + s.queue
      && |s.accepted| - |s.delivered| <= CAPACITY
      && (Can(s, Finish) ==> |s.ring| < CAPACITY)
      && (s.caller.Idle? && s.ring == [] && s.running.None? && s.queue == [] ==> s.delivered == s.accepted && s.pending == 0)
  {
    RunKeepsInv(states, actions, k);
  }

  // ---- progress --------------------------------------------------------------------------

  ghost predicate Leads(s: State, actions: seq<Action>, t: State)
    decreases |actions|
  {
    if actions == [] then t == s else Can(s, actions[0]) && Leads(Do(s, actions[0]), actions[1..], t)
  }

  // Whoever holds a request passes it on; a reservation without one is given back.
  function Next(s: State): Action {
    match s.caller
    case Reserved(_) => Refuse
    case Undoing => ReleaseReservation
    case Taken(_) => TakeRelease
    case Idle => if s.running.Some? then Finish else if s.queue != [] then Pop else TakePop
  }

  function Left(s: State): nat {
    4 * |s.queue| + 3 * |Running(s)| + 2 * |s.ring|
    + match s.caller
      case Idle => 0
      case Reserved(_) => 2
      case Undoing => 1
      case Taken(_) => 1
  }

  lemma NextMoves(s: State)
    requires Left(s) > 0
    ensures Can(s, Next(s)) && Left(Do(s, Next(s))) < Left(s) && Do(s, Next(s)).accepted == s.accepted
  {}

  lemma {:induction false} Drive(s: State) returns (actions: seq<Action>, t: State)
    requires Inv(s)
    ensures Leads(s, actions, t) && Inv(t) && Left(t) == 0 && t.accepted == s.accepted
    decreases Left(s)
  {
    hide Inv, Can, Do, Left, Next;
    if Left(s) == 0 {
      actions, t := [], s;
    } else {
      NextMoves(s);
      StepKeepsInv(s, Next(s));
      var rest;
      rest, t := Drive(Do(s, Next(s)));
      actions := [Next(s)] + rest;
      assert actions[1..] == rest;
    }
  }

  // From every reachable state writer and caller can go on until every accepted request has
  // been returned to the caller, in order, and no reservation is out.
  lemma EveryRequestCanComplete(states: seq<State>, actions: seq<Action>) returns (more: seq<Action>, t: State)
    requires IsRun(states, actions) && Init(states[0]) && |states| == |actions| + 1
    ensures Leads(states[|actions|], more, t)
    ensures t.delivered == t.accepted == states[|actions|].accepted && t.pending == 0
  {
    RunKeepsInv(states, actions, |actions|);
    more, t := Drive(states[|actions|]);
    assert t.accepted == t.delivered + [] + [] + [] + [] == t.delivered;
  }
}
