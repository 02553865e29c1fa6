// Append leases and close admission of xcom_core/src/io/log_writer.cpp. Any number of threads
// take leases; the ABI caller closes admission and waits for them; the writer thread runs the
// Open and Close jobs in order.
module LeaseProtocol {

  // A thread inside acquire_append_lease, holding a lease, or giving one back.
  datatype Lease = Away | Checked | Counted | Holding | Undoing

  // The ABI caller inside close(). `clean` is history: when it began, no queued Open job could
  // reopen the file.
  datatype Closer = Idle | Waiting(clean: bool) | Closed(clean: bool)

  datatype Job = OpenJob | CloseJob(clean: bool)

  datatype State = State(
    accepting: bool,             // accepting_log
    file: bool,                  // log_file is open
    inFlight: int,               // appenders_in_flight
    threads: map<nat, Lease>,
    closer: Closer,
    jobs: seq<Job>,
    underLease: bool)            // history: a Close job closed the file while a lease was out

  datatype Action =
    | FirstCheck(t: nat)         // load accepting_log
    | Count(t: nat)              // fetch_add
    | SecondCheck(t: nat)        // load again
    | Undo(t: nat)               // it was false: fetch_sub and retry
    | Return(t: nat)             // release_lease
    | SubmitOpen
    | CloseAdmission             // accepting_log = false
    | SeeNone                    // appenders_in_flight reads zero
    | GiveUp                     // timeout
    | SubmitClose
    | RunOpen(ok: bool)
    | RunClose                   // stop admission, drain the raw ring, close the file

  predicate At(s: State, t: nat, l: Lease) { t in s.threads && s.threads[t] == l }

  predicate Can(s: State, a: Action) {
    match a
    case FirstCheck(t) => At(s, t, Away)
    case Count(t) => At(s, t, Checked)
    case SecondCheck(t) => At(s, t, Counted)
    case Undo(t) => At(s, t, Undoing)
    case Return(t) => At(s, t, Holding)
    case SubmitOpen => s.closer.Idle? && !s.accepting
    case CloseAdmission => s.closer.Idle?
    case SeeNone => s.closer.Waiting? && s.inFlight == 0
    case GiveUp => s.closer.Waiting?
    case SubmitClose => s.closer.Closed?
    case RunOpen(_) => s.jobs != [] && s.jobs[0].OpenJob?
    case RunClose => s.jobs != [] && s.jobs[0].CloseJob?
  }

  // Some queued Open job will find the file closed: it is closed now, or a Close job stands
  // ahead of it. Any other Open job reports BUSY and leaves admission alone.
  predicate Reopens(jobs: seq<Job>, file: bool) {
    if jobs == [] then false
    else if jobs[0].OpenJob? then !file || Reopens(jobs[1..], file)
    else Reopens(jobs[1..], false)
  }

  function Goto(s: State, t: nat, l: Lease): State { s.(threads := s.threads[t := l]) }

  function Holders(s: State): set<nat> { set t | t in s.threads && s.threads[t].Holding? }

  function Do(s: State, a: Action): State
    requires Can(s, a)
  {
    match a
    case FirstCheck(t) => if s.accepting then Goto(s, t, Checked) else s
    case Count(t) => Goto(s, t, Counted).(inFlight := s.inFlight + 1)
    case SecondCheck(t) => Goto(s, t, if s.accepting then Holding else Undoing)
    case Undo(t) => Goto(s, t, Away).(inFlight := s.inFlight - 1)
    case Return(t) => Goto(s, t, Away).(inFlight := s.inFlight - 1)
    case SubmitOpen => s.(jobs := s.jobs + [OpenJob])
    case CloseAdmission => s.(accepting := false, closer := Waiting(!Reopens(s.jobs, s.file)))
    case SeeNone => s.(closer := Closed(s.closer.clean))
    case GiveUp => s.(closer := Idle)
    case SubmitClose => s.(closer := Idle, jobs := s.jobs + [CloseJob(s.closer.clean)])
    case RunOpen(ok) =>
      if s.file then s.(jobs := s.jobs[1..]) else s.(jobs := s.jobs[1..], file := ok, accepting := ok)
    case RunClose =>
      s.(jobs := s.jobs[1..], file := false, accepting := false,
         underLease := s.underLease || (s.file && Holders(s) != {}))
  }

  predicate Init(s: State) {
    && !s.accepting && !s.file && s.inFlight == 0 && s.closer.Idle? && s.jobs == [] && !s.underLease
    && forall t :: t in s.threads ==> s.threads[t].Away?
  }

  // ---- the queue -------------------------------------------------------------------

  // No Close job begun clean stands behind an Open job that can reopen the file.
  predicate CleanQueue(jobs: seq<Job>, file: bool) {
    if jobs == [] then true
    else if jobs[0].OpenJob? then CleanQueue(jobs[1..], file) && (file || CloseJob(true) !in jobs[1..])
    else CleanQueue(jobs[1..], false)
  }

  lemma {:induction false} NoneToGuard(jobs: seq<Job>, file: bool)
    requires CloseJob(true) !in jobs
    ensures CleanQueue(jobs, file)
  {
    if jobs != [] { NoneToGuard(jobs[1..], file && jobs[0].OpenJob?); }
  }

  lemma {:induction false} PushOpen(jobs: seq<Job>, file: bool)
    requires CleanQueue(jobs, file)
    ensures CleanQueue(jobs + [OpenJob], file)
  {
    if jobs != [] {
      assert (jobs + [OpenJob])[1..] == jobs[1..] + [OpenJob];
      PushOpen(jobs[1..], file && jobs[0].OpenJob?);
    }
  }

  lemma {:induction false} PushClose(jobs: seq<Job>, file: bool, clean: bool)
    requires CleanQueue(jobs, file) && (clean ==> !Reopens(jobs, file))
    ensures CleanQueue(jobs + [CloseJob(clean)], file)
  {
    if jobs != [] {
      assert (jobs + [CloseJob(clean)])[1..] == jobs[1..] + [CloseJob(clean)];
      PushClose(jobs[1..], file && jobs[0].OpenJob?, clean);
    }
  }

  // ---- the invariant ---------------------------------------------------------------

  predicate IsCounted(l: Lease) { l.Counted? || l.Holding? || l.Undoing? }

  function InCount(s: State): set<nat> { set t | t in s.threads && IsCounted(s.threads[t]) }

  // A close begun clean is still to be carried out.
  predicate CleanClosePending(s: State) {
    (s.closer.Closed? && s.closer.clean) || CloseJob(true) in s.jobs
  }

  ghost predicate Inv(s: State) {
    && s.inFlight == |InCount(s)| && (s.accepting ==> s.file)
    && ((s.closer.Waiting? || s.closer.Closed?) && s.closer.clean ==> !s.accepting && !Reopens(s.jobs, s.file))
    && CleanQueue(s.jobs, s.file)
    && (CleanClosePending(s) ==> !s.accepting && Holders(s) == {})
  }

  // Moving one thread in or out of the count.
  lemma CountMoves(s: State, t: nat, l: Lease)
    requires t in s.threads
    ensures
      var before, after := IsCounted(s.threads[t]), IsCounted(l);
      |InCount(Goto(s, t, l))| == |InCount(s)| + (if after && !before then 1 else if before && !after then -1 else 0)
  {
    var a, b := InCount(s), InCount(Goto(s, t, l));
    if IsCounted(l) { assert b == a + {t}; } else { assert b == a - {t}; }
  }

  lemma ThreadKeepsInv(s: State, a: Action)
    requires Inv(s) && Can(s, a)
    requires a.FirstCheck? || a.Count? || a.SecondCheck? || a.Undo? || a.Return?
    ensures Inv(Do(s, a))
  {
    hide Reopens, CleanQueue;
    match a
    case FirstCheck(t) => CountMoves(s, t, Checked);
    case Count(t) => CountMoves(s, t, Counted);
    case SecondCheck(t) => CountMoves(s, t, if s.accepting then Holding else Undoing);
    case Undo(t) => CountMoves(s, t, Away);
    case Return(t) => CountMoves(s, t, Away);
    case _ =>
  }

  lemma SeeNoneKeepsInv(s: State)
    requires Inv(s) && Can(s, SeeNone)
    ensures Inv(Do(s, SeeNone))
  {
    hide Reopens, CleanQueue;
    assert InCount(Do(s, SeeNone)) == InCount(s) == {};
    forall t | t in s.threads ensures !s.threads[t].Holding? {
      assert t !in InCount(s);
    }
  }

  lemma CallerKeepsInv(s: State, a: Action)
    requires Inv(s) && Can(s, a)
    requires a.SubmitOpen? || a.CloseAdmission? || a.GiveUp? || a.SubmitClose?
    ensures Inv(Do(s, a))
  {
    hide Reopens, CleanQueue;
    assert InCount(Do(s, a)) == InCount(s) && Holders(Do(s, a)) == Holders(s);
    if a.SubmitOpen? { PushOpen(s.jobs, s.file); }
    if a.SubmitClose? { PushClose(s.jobs, s.file, s.closer.clean); }
  }

  lemma JobKeepsInv(s: State, a: Action)
    requires Inv(s) && Can(s, a) && (a.RunOpen? || a.RunClose?)
    ensures Inv(Do(s, a))
  {
    assert InCount(Do(s, a)) == InCount(s) && Holders(Do(s, a)) == Holders(s);
    assert s.jobs == [s.jobs[0]] + s.jobs[1..];
    if a.RunOpen? && !s.file { NoneToGuard(s.jobs[1..], a.ok); }
  }

  lemma StepKeepsInv(s: State, a: Action)
    requires Inv(s) && Can(s, a)
    ensures Inv(Do(s, a))
  {
    hide Inv, Do, Can;
    if a.FirstCheck? || a.Count? || a.SecondCheck? || a.Undo? || a.Return? { ThreadKeepsInv(s, a); }
    else if a.SeeNone? { SeeNoneKeepsInv(s); }
    else if a.RunOpen? || a.RunClose? { JobKeepsInv(s, a); }
    else { CallerKeepsInv(s, a); }
  }

  // ---- runs --------------------------------------------------------------------------

  // The state a run of actions leads to, if each of them is possible in turn.
  ghost predicate Leads(s: State, actions: seq<Action>, t: State)
    decreases |actions|
  {
    if actions == [] then s == t else Can(s, actions[0]) && Leads(Do(s, actions[0]), actions[1..], t)
  }

  lemma {:induction false} LeadsOn(s: State, a: seq<Action>, m: State, b: seq<Action>, t: State)
    requires Leads(s, a, m) && Leads(m, b, t)
    ensures Leads(s, a + b, t)
    decreases |a|
  {
    if a == [] {
      assert a + b == b;
    } else {
      assert (a + b)[1..] == a[1..] + b;
      LeadsOn(Do(s, a[0]), a[1..], m, b, t);
    }
  }

  lemma LeadsStep(s: State, a: Action)
    requires Can(s, a)
    ensures Leads(s, [a], Do(s, a))
  {
    assert [a][1..] == [];
    assert Leads(Do(s, a), [], Do(s, a));
  }

  lemma {:induction false} RunKeepsInv(s: State, actions: seq<Action>, t: State)
    requires Inv(s) && Leads(s, actions, t)
    ensures Inv(t)
    decreases |actions|
  {
    hide Inv, Can, Do;
    if actions != [] {
      StepKeepsInv(s, actions[0]);
      RunKeepsInv(Do(s, actions[0]), actions[1..], t);
    }
  }

  ghost predicate Reachable(s: State, init: State, actions: seq<Action>) { Init(init) && Leads(init, actions, s) }

  lemma ReachableInv(s: State, init: State, actions: seq<Action>)
    requires Reachable(s, init, actions)
    ensures Inv(s)
  {
    assert InCount(init) == {} && Holders(init) == {};
    RunKeepsInv(init, actions, s);
  }

  // The safe half. Once close_append_admission, begun when no queued Open could reopen the
  // file, has returned true, no thread holds a lease and admission stays shut until its Close
  // job has run; so the drain inside that job is the last word, and it never closes the file
  // under a lease.
  lemma CloseDrainIsFinal(s: State, init: State, actions: seq<Action>)
    requires Reachable(s, init, actions) && CleanClosePending(s)
    ensures !s.accepting && Holders(s) == {}
    ensures forall t :: Can(s, SecondCheck(t)) ==> Do(s, SecondCheck(t)).threads[t] == Undoing
    ensures Can(s, RunClose) ==> Do(s, RunClose).underLease == s.underLease
  {
    ReachableInv(s, init, actions);
  }

  // ---- the other half ------------------------------------------------------------------

  // With admission shut every lease comes back.
  lemma {:induction false} LeasesReturn(s: State, who: nat) returns (actions: seq<Action>, t: State)
    requires Inv(s) && !s.accepting && At(s, who, Away)
    ensures Leads(s, actions, t) && Inv(t) && t.inFlight == 0 && At(t, who, Away)
    ensures t == s.(threads := t.threads, inFlight := 0) && CloseAdmission !in actions
    decreases |InCount(s)|
  {
    hide Reopens, CleanQueue, Leads, Holders;
    if InCount(s) == {} {
      LeadsNowhere(s);
      actions, t := [], s;
    } else {
      var u :| u in InCount(s);
      var first, m := Release(s, u);
      CountMoves(s, u, Away);
      var rest;
      rest, t := LeasesReturn(m, who);
      LeadsOn(s, first, m, rest, t);
      actions := first + rest;
    }
  }

  lemma LeadsNowhere(s: State)
    ensures Leads(s, [], s)
  {}

  // One counted thread on its way out.
  lemma Release(s: State, u: nat) returns (actions: seq<Action>, t: State)
    requires Inv(s) && !s.accepting && u in InCount(s)
    ensures Leads(s, actions, t) && Inv(t) && t == Goto(s, u, Away).(inFlight := s.inFlight - 1)
    ensures CloseAdmission !in actions
  {
    hide Inv, Leads;
    var a := if s.threads[u].Holding? then Return(u) else if s.threads[u].Undoing? then Undo(u) else SecondCheck(u);
    LeadsStep(s, a);
    StepKeepsInv(s, a);
    actions, t := [a], Do(s, a);
    if a.SecondCheck? {
      LeadsStep(t, Undo(u));
      StepKeepsInv(t, Undo(u));
      LeadsOn(s, [a], t, [Undo(u)], Do(t, Undo(u)));
      actions, t := [a] + [Undo(u)], Do(t, Undo(u));
      assert s.threads[u := Undoing][u := Away] == s.threads[u := Away];
    }
  }

  // The writer runs the queue up to the Open job that reopens the file.
  lemma {:induction false} QueueReopens(s: State) returns (actions: seq<Action>, t: State)
    requires Reopens(s.jobs, s.file)
    ensures Leads(s, actions, t) && t.accepting && t.file && t.closer == s.closer && t.threads == s.threads
    ensures CloseAdmission !in actions
    decreases |s.jobs|
  {
    hide Leads;
    var a := if s.jobs[0].OpenJob? then RunOpen(true) else RunClose;
    LeadsStep(s, a);
    if s.jobs[0].OpenJob? && !s.file {
      actions, t := [a], Do(s, a);
    } else {
      var rest;
      rest, t := QueueReopens(Do(s, a));
      LeadsOn(s, [a], Do(s, a), rest, t);
      actions := [a] + rest;
    }
  }

  // The queue runs out, ending in a Close job, while a thread holds a lease on an open file.
  lemma {:induction false} QueueClosesUnderLease(s: State, who: nat) returns (actions: seq<Action>, t: State)
    requires s.jobs != [] && s.jobs[|s.jobs| - 1].CloseJob?
    requires At(s, who, Holding) && (s.file || s.underLease)
    ensures Leads(s, actions, t) && t.underLease && At(t, who, Holding) && t.jobs == [] && !t.file
    decreases |s.jobs|
  {
    hide Leads;
    assert who in Holders(s);
    var a := if s.jobs[0].OpenJob? then RunOpen(true) else RunClose;
    LeadsStep(s, a);
    var m := Do(s, a);
    if |s.jobs| == 1 {
      actions, t := [a], m;
    } else {
      var rest;
      rest, t := QueueClosesUnderLease(m, who);
      LeadsOn(s, [a], m, rest, t);
      actions := [a] + rest;
    }
  }

  lemma TakeLease(s: State, who: nat) returns (actions: seq<Action>, t: State)
    requires s.accepting && At(s, who, Away)
    ensures Leads(s, actions, t) && At(t, who, Holding) && CloseAdmission !in actions
    ensures t.file == s.file && t.jobs == s.jobs && t.closer == s.closer && t.underLease == s.underLease
  {
    hide Leads;
    LeadsStep(s, FirstCheck(who));
    var a := Do(s, FirstCheck(who));
    LeadsStep(a, Count(who));
    var b := Do(a, Count(who));
    LeadsStep(b, SecondCheck(who));
    t := Do(b, SecondCheck(who));
    LeadsOn(s, [FirstCheck(who)], a, [Count(who)], b);
    LeadsOn(s, [FirstCheck(who)] + [Count(who)], b, [SecondCheck(who)], t);
    actions := [FirstCheck(who)] + [Count(who)] + [SecondCheck(who)];
  }

  // Begun in s, close_append_admission returns true, and then a lease is out all the same.
  ghost predicate Breaks(s: State, more: seq<Action>, m: State) {
    && Leads(s, [CloseAdmission] + more, m) && CloseAdmission !in more
    && m.closer.Closed? && Holders(m) != {}
  }

  lemma {:induction false} CleanStaysClean(s: State, actions: seq<Action>, t: State)
    requires Leads(s, actions, t) && CloseAdmission !in actions
    requires s.closer.Waiting? || s.closer.Closed? ==> s.closer.clean
    ensures t.closer.Waiting? || t.closer.Closed? ==> t.closer.clean
    decreases |actions|
  {
    if actions != [] { CleanStaysClean(Do(s, actions[0]), actions[1..], t); }
  }

  lemma CleanCloseHolds(s: State, init: State, actions: seq<Action>, more: seq<Action>, m: State)
    requires Reachable(s, init, actions) && s.closer.Idle? && !Reopens(s.jobs, s.file)
    ensures !Breaks(s, more, m)
  {
    if Breaks(s, more, m) {
      ReachableInv(s, init, actions);
      RunKeepsInv(s, [CloseAdmission] + more, m);
      assert ([CloseAdmission] + more)[1..] == more;
      CleanStaysClean(Do(s, CloseAdmission), more, m);
    }
  }

  lemma UncleanCloseBreaks(s: State, init: State, actions: seq<Action>, who: nat)
    returns (more: seq<Action>, m: State)
    requires Reachable(s, init, actions) && s.closer.Idle? && Reopens(s.jobs, s.file) && At(s, who, Away)
    ensures Breaks(s, more, m) && m.file && m.closer == Closed(false) && At(m, who, Holding)
  {
    hide Leads, Reopens, CleanQueue, Holders;
    ReachableInv(s, init, actions);
    var a := Do(s, CloseAdmission);
    StepKeepsInv(s, CloseAdmission);
    LeadsStep(s, CloseAdmission);
    var back, b := LeasesReturn(a, who);
    LeadsStep(b, SeeNone);
    var c := Do(b, SeeNone);
    LeadsOn(a, back, b, [SeeNone], c);
    var reopen, d := QueueReopens(c);
    LeadsOn(a, back + [SeeNone], c, reopen, d);
    var lease;
    lease, m := TakeLease(d, who);
    LeadsOn(a, back + [SeeNone] + reopen, d, lease, m);
    more := back + [SeeNone] + reopen + lease;
    LeadsOn(s, [CloseAdmission], a, more, m);
    HolderIn(m, who);
  }

  lemma HolderIn(s: State, t: nat)
    requires At(s, t, Holding)
    ensures Holders(s) != {}
  {
    assert t in Holders(s);
  }

  // Exactly when close() is safe: begun in a reachable state with some thread outside the
  // protocol, it can return true and still leave a lease out if and only if a queued Open job
  // can reopen the file.
  lemma CloseBreaksIff(s: State, init: State, actions: seq<Action>, who: nat)
    requires Reachable(s, init, actions) && s.closer.Idle? && At(s, who, Away)
    ensures (exists more, m :: Breaks(s, more, m)) <==> Reopens(s.jobs, s.file)
  {
    if Reopens(s.jobs, s.file) {
      var more, m := UncleanCloseBreaks(s, init, actions, who);
      assert Breaks(s, more, m);
    } else {
      forall more, m ensures !Breaks(s, more, m) { CleanCloseHolds(s, init, actions, more, m); }
    }
  }

  // From any such state the Close job then closes the file under the lease.
  lemma FileClosedUnderLease(s: State, init: State, actions: seq<Action>, who: nat)
    returns (after: seq<Action>, t: State)
    requires Reachable(s, init, actions) && s.closer.Idle? && Reopens(s.jobs, s.file) && At(s, who, Away)
    ensures Leads(s, [CloseAdmission] + after, t) && t.underLease && At(t, who, Holding) && !t.file
  {
    hide Leads, Reopens;
    var more, m := UncleanCloseBreaks(s, init, actions, who);
    LeadsStep(m, SubmitClose);
    var e := Do(m, SubmitClose);
    LeadsOn(s, [CloseAdmission] + more, m, [SubmitClose], e);
    var last;
    last, t := QueueClosesUnderLease(e, who);
    LeadsOn(s, [CloseAdmission] + more + [SubmitClose], e, last, t);
    after := more + [SubmitClose] + last;
    assert [CloseAdmission] + after == [CloseAdmission] + more + [SubmitClose] + last;
  }

  // An open() that timed out behind other work leaves such a state.
  lemma QueuedOpenBreaksClose(init: State, who: nat)
    returns (s: State, before: seq<Action>, after: seq<Action>, t: State)
    requires Init(init) && who in init.threads
    ensures Reachable(s, init, before) && s.closer.Idle? && Reopens(s.jobs, s.file)
    ensures Leads(s, [CloseAdmission] + after, t) && t.underLease && At(t, who, Holding) && !t.file
  {
    LeadsStep(init, SubmitOpen);
    before, s := [SubmitOpen], Do(init, SubmitOpen);
    assert s.jobs == [OpenJob];
    after, t := FileClosedUnderLease(s, init, before, who);
  }
}
