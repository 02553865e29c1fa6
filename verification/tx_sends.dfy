// What becomes of a payload xcom_send has accepted, and of an accepted template: in an open
// session every user payload is written once and in order or still on its way, and the path
// can always be driven until all of them are written.
module TxSends {
  import opened Bytes
  import opened SerialAo
  import SerialSystem
  import opened TxPath
  import SessionWriter

  // The payloads of session g in order, all of them or the user's only.
  function Of(txs: seq<Tx>, g: nat, all: bool): seq<Tx> {
    if txs == [] then []
    else (if txs[0].session == g && (all || !txs[0].autoSend) then [txs[0]] else []) + Of(txs[1..], g, all)
  }

  function User(txs: seq<Tx>, g: nat): seq<Tx> { Of(txs, g, false) }

  // All payloads of session g.
  function OfSession(txs: seq<Tx>, g: nat): seq<Tx> {
    if txs == [] then []
    else OfSession(txs[..|txs| - 1], g) + (if txs[|txs| - 1].session == g then [txs[|txs| - 1]] else [])
  }

  lemma OfSessionPush(txs: seq<Tx>, tx: Tx, g: nat)
    ensures OfSession(txs + [tx], g) == OfSession(txs, g) + (if tx.session == g then [tx] else [])
  {
    assert (txs + [tx])[..|txs|] == txs;
  }

  lemma {:induction false} OfConcat(a: seq<Tx>, b: seq<Tx>, g: nat, all: bool)
    ensures Of(a + b, g, all) == Of(a, g, all) + Of(b, g, all)
  {
    if a == [] {
      assert a + b == b;
    } else {
      assert (a + b)[1..] == a[1..] + b;
      OfConcat(a[1..], b, g, all);
    }
  }

  lemma {:induction false} NoneOfLater(txs: seq<Tx>, g: nat, all: bool)
    requires forall k :: 0 <= k < |txs| ==> txs[k].session < g
    ensures Of(txs, g, all) == []
  {
    if txs != [] { NoneOfLater(txs[1..], g, all); }
  }

  lemma {:induction false} OfIn(txs: seq<Tx>, g: nat, all: bool, tx: Tx)
    ensures tx in Of(txs, g, all) <==> tx in txs && tx.session == g && (all || !tx.autoSend)
  {
    if txs != [] {
      OfIn(txs[1..], g, all, tx);
      assert txs == [txs[0]] + txs[1..];
    }
  }

  lemma {:induction false} NoneAccepted(txs: seq<Tx>, g: nat)
    requires forall k :: 0 <= k < |txs| ==> txs[k].session < g
    ensures OfSession(txs, g) == []
  {
    if txs != [] { NoneAccepted(txs[..|txs| - 1], g); }
  }

  function InHand(hand: Option<Tx>): seq<Tx> { if hand.Some? then [hand.value] else [] }

  // With the worker, and not yet let through to the backend or turned away.
  function AtWorker(w: Worker): seq<Tx> { if w.Popped? || w.GenMatched? then [w.tx] else [] }

  // On the way to the backend, the oldest first.
  function Pending(t: Lane): seq<Tx> { AtWorker(t.worker) + t.ring + InHand(t.hand) + t.sends }

  ghost predicate SendInv(s: State) {
    var p, t := s.core.port, s.tx;
    && AllStamped(t.accepted, p) && AllStamped(t.written, p)
    && (t.caller.Sending? ==> !t.caller.tx.autoSend)
    && (p.published == Open ==>
          OfSession(t.accepted, p.openGeneration) == User(t.written, p.openGeneration) + User(Pending(t), p.openGeneration))
  }

  // ---- one step ------------------------------------------------------------------------

  lemma OpenPort(p: Port)
    requires Rest(p) && p.published == Open
    ensures p.state == Open && p.live && p.generation == p.openGeneration
  {}

  lemma OneOf(tx: Tx, g: nat, all: bool)
    ensures Of([tx], g, all) == if tx.session == g && (all || !tx.autoSend) then [tx] else []
  {
    assert [tx][1..] == [];
  }

  // Steps that leave the payloads where they are, or move one to the next place.
  lemma MoveKeepsPending(s: State, step: Step)
    requires Inv(s) && CanTx(s, step) && s.core.port.published == Open
    requires !step.SendSubmit? && !step.UserAction? && !step.AutoAction? && !step.WorkerLoadGen? && !step.WorkerLoadPort?
    ensures
      var t := DoTx(s, step);
      Pending(t) == Pending(s.tx) && t.accepted == s.tx.accepted && t.written == s.tx.written
  {
    OpenPort(s.core.port);
    RingNeverFull(s.tx);
  }

  lemma UserKeepsPending(s: State, g: nat, all: bool)
    requires Inv(s) && CanTx(s, UserAction) && s.core.port.published == Open && g == s.core.port.openGeneration
    ensures
      var t := DoTx(s, UserAction);
      Of(Pending(t), g, all) == Of(Pending(s.tx), g, all) && t.accepted == s.tx.accepted && t.written == s.tx.written
  {
    hide Of, EachOnce;
    OpenPort(s.core.port);
    var t, tx := s.tx, s.tx.sends[0];
    var front := AtWorker(t.worker) + t.ring;
    assert Stamped(tx, s.core.port);
    assert Pending(t) == front + ([tx] + t.sends[1..]);
    if tx.gen != s.core.port.generation {
      assert Pending(DoTx(s, UserAction)) == front + t.sends[1..];
      StaleLeaves(front, tx, t.sends[1..], g, all);
    } else {
      assert Pending(DoTx(s, UserAction)) == front + ([tx] + t.sends[1..]);
    }
  }

  lemma StaleLeaves(front: seq<Tx>, tx: Tx, rest: seq<Tx>, g: nat, all: bool)
    requires (!all && tx.autoSend) || tx.session != g
    ensures Of(front + ([tx] + rest), g, all) == Of(front + rest, g, all)
  {
    OfConcat(front, [tx] + rest, g, all);
    OfConcat([tx], rest, g, all);
    OfConcat(front, rest, g, all);
    OneOf(tx, g, all);
  }

  lemma AutoKeepsPending(s: State, b: nat, g: nat)
    requires CanTx(s, AutoAction(b))
    ensures
      var t := DoTx(s, AutoAction(b));
      User(Pending(t), g) == User(Pending(s.tx), g) && t.accepted == s.tx.accepted && t.written == s.tx.written
  {
    var t, m := s.tx, DoTx(s, AutoAction(b));
    var front := AtWorker(t.worker) + t.ring;
    assert Pending(t) == front + t.sends && Pending(m) == front + ([m.hand.value] + t.sends);
    StaleLeaves(front, m.hand.value, t.sends, g, false);
  }

  lemma WorkerKeepsPending(s: State, step: Step, g: nat, all: bool)
    requires Inv(s) && CanTx(s, step) && (step.WorkerLoadGen? || step.WorkerLoadPort?)
    requires s.core.port.published == Open && g == s.core.port.openGeneration
    ensures
      var t := DoTx(s, step);
      && t.accepted == s.tx.accepted
      && Of(t.written, g, all) + Of(Pending(t), g, all) == Of(s.tx.written, g, all) + Of(Pending(s.tx), g, all)
  {
    hide Of, EachOnce;
    OpenPort(s.core.port);
    var t, tx := s.tx, s.tx.worker.tx;
    var rest := t.ring + InHand(t.hand) + t.sends;
    assert Pending(t) == [tx] + rest;
    OfConcat([tx], rest, g, all);
    OneOf(tx, g, all);
    assert Stamped(tx, s.core.port);
    var m := DoTx(s, step);
    if m.worker.GenMatched? {
      assert Pending(m) == [tx] + rest;
    } else {
      assert Pending(m) == rest;
      OfConcat(t.written, [tx], g, all);
    }
  }

  lemma SubmitKeepsSends(s: State, accepted: bool)
    requires Inv(s) && SendInv(s) && CanTx(s, SendSubmit(accepted))
    ensures SendInv(s.(tx := DoTx(s, SendSubmit(accepted))))
  {
    hide Of, OfSession, BlocksInv;
    var t, g := s.tx, s.core.port.openGeneration;
    var m := DoTx(s, SendSubmit(accepted));
    if accepted {
      assert Pending(m) == Pending(t) + [t.caller.tx];
      OfConcat(Pending(t), [t.caller.tx], g, false);
      OneOf(t.caller.tx, g, false);
      OfSessionPush(t.accepted, t.caller.tx, g);
      Regroup(User(t.written, g), User(Pending(t), g), User([t.caller.tx], g));
    } else {
      assert Pending(m) == Pending(t);
    }
  }

  lemma Regroup(a: seq<Tx>, b: seq<Tx>, c: seq<Tx>)
    ensures a + (b + c) == (a + b) + c
  {}

  lemma TxStepKeepsStamps(s: State, step: Step)
    requires FenceInv(s) && SendInv(s) && CanTx(s, step)
    ensures DoTx(s, step).caller.Sending? ==> !DoTx(s, step).caller.tx.autoSend
    ensures AllStamped(DoTx(s, step).accepted, s.core.port) && AllStamped(DoTx(s, step).written, s.core.port)
  {}

  lemma TxStepKeepsSends(s: State, step: Step)
    requires Inv(s) && SendInv(s) && CanTx(s, step)
    ensures SendInv(s.(tx := DoTx(s, step)))
  {
    hide BlocksInv, DoTx, Of, OfSession, Pending, CanTx;
    TxStepKeepsStamps(s, step);
    var g := s.core.port.openGeneration;
    if step.SendSubmit? {
      SubmitKeepsSends(s, step.accepted);
    } else if s.core.port.published == Open {
      if step.UserAction? { UserKeepsPending(s, g, false); }
      else if step.AutoAction? { AutoKeepsPending(s, step.b, g); }
      else if step.WorkerLoadGen? || step.WorkerLoadPort? { WorkerKeepsPending(s, step, g, false); }
      else { MoveKeepsPending(s, step); }
    }
  }

  // A port that reads OPEN in the session it had before has read OPEN before, and its worker
  // was not joined.
  lemma OpenWasOpen(s: SerialSystem.State, step: SerialSystem.Step)
    requires Rest(s.port) && SerialSystem.Can(s, step)
    ensures
      var p, q := s.port, SerialSystem.Do(s, step).port;
      && q.openGeneration >= p.openGeneration
      && (q.published == Open && q.openGeneration == p.openGeneration ==> p.published == Open && q.closes == p.closes)
  {
    hide DoOpen, DoClose, DoFault;
    SerialSystem.StepMovesSession(s, step);
    if step.Dispatch? {
      var q := s.port.(queue := s.port.queue[1..]);
      DoOpenResult(q, step.env);
      DoCloseResult(q, step.env);
      DoFaultResult(q, step.env);
    }
  }

  lemma SerialKeepsSends(s: State, step: SerialSystem.Step)
    requires Inv(s) && SendInv(s) && Can(s, Serial(step))
    ensures SendInv(Do(s, Serial(step)))
  {
    hide SerialSystem.Can, SerialSystem.Do, BlocksInv, Of, OfSession;
    OpenWasOpen(s.core, step);
    var p, q, t := s.core.port, Do(s, Serial(step)).core.port, Do(s, Serial(step)).tx;
    if q.published == Open && q.openGeneration > p.openGeneration {
      NoneAccepted(t.accepted, q.openGeneration);
      NoneOfLater(t.written, q.openGeneration, false);
      NoneOfLater(Pending(t), q.openGeneration, false);
    }
  }

  // ---- over all runs ------------------------------------------------------------------------

  lemma InitSends(s: State)
    requires Init(s)
    ensures SendInv(s)
  {}

  lemma StepKeepsSends(s: State, step: Step)
    requires Inv(s) && SendInv(s) && Can(s, step)
    ensures SendInv(Do(s, step))
  {
    hide Inv, SendInv, SerialSystem.Can, SerialSystem.Do, CanTx, DoTx;
    if step.Serial? { SerialKeepsSends(s, step.step); } else { TxStepKeepsSends(s, step); }
  }

  lemma {:induction false} RunKeepsSends(states: seq<State>, steps: seq<Step>, k: nat)
    requires IsRun(states, steps) && Init(states[0]) && k < |states|
    ensures SendInv(states[k])
  {
    hide *;
    RunShape(states, steps);
    if k == 0 {
      InitSends(states[0]);
    } else {
      RunStep(states, steps, k - 1);
      RunKeepsInv(states, steps, k - 1);
      RunKeepsSends(states, steps, k - 1);
      StepKeepsSends(states[k - 1], steps[k - 1]);
    }
  }

  // While the port reads OPEN, the user payloads accepted in this session are, in order: those
  // the backend was given, the one the worker is checking, those on the job ring, the one the
  // Dispatcher holds, and those whose event is queued. None was dropped and none is given twice.
  lemma SendsAreWrittenInOrder(states: seq<State>, steps: seq<Step>, k: nat)
    requires IsRun(states, steps) && Init(states[0]) && k < |states| && states[k].core.port.published == Open
    ensures
      var t, g := states[k].tx, states[k].core.port.openGeneration;
      OfSession(t.accepted, g) ==
        User(t.written, g) + User(AtWorker(t.worker), g) + User(t.ring, g) + User(InHand(t.hand), g) + User(t.sends, g)
  {
    hide Of, OfSession, Inv, Init, IsRun;
    RunKeepsSends(states, steps, k);
    var t, g := states[k].tx, states[k].core.port.openGeneration;
    OfConcat(AtWorker(t.worker) + t.ring + InHand(t.hand), t.sends, g, false);
    OfConcat(AtWorker(t.worker) + t.ring, InHand(t.hand), g, false);
    OfConcat(AtWorker(t.worker), t.ring, g, false);
  }

  // ---- progress -----------------------------------------------------------------------------

  ghost predicate Leads(s: State, steps: seq<Step>, t: State)
    decreases |steps|
  {
    if steps == [] then t == s else Can(s, steps[0]) && Leads(Do(s, steps[0]), steps[1..], t)
  }

  // The next step of worker and Dispatcher, the furthest payload first.
  function NextStep(t: Lane): Step {
    match t.worker
    case Popped(_) => WorkerLoadGen
    case GenMatched(_) => WorkerLoadPort
    case Writing(_) => WorkerWritten
    case Releasing(_) => WorkerRelease
    case Idle => if t.ring != [] then WorkerPop else if t.hand.Some? then HandEnqueue else UserAction
  }

  function WorkLeft(t: Lane): nat {
    10 * |t.sends| + (if t.hand.Some? then 8 else 0) + 6 * |t.ring|
    + match t.worker
      case Popped(_) => 4
      case GenMatched(_) => 3
      case Writing(_) => 2
      case Releasing(_) => 1
      case Idle => 0
  }

  // Jobs the session will have enqueued when everything on the way has been.
  function JobsInAll(t: Lane): nat { t.enqueued + |t.sends| + |InHand(t.hand)| }

  lemma WorkerStep(s: State)
    requires Inv(s) && s.core.port.published == Open && !s.tx.worker.Idle?
    ensures
      var step := NextStep(s.tx);
      && CanTx(s, step) && WorkLeft(DoTx(s, step)) < WorkLeft(s.tx)
      && JobsInAll(DoTx(s, step)) == JobsInAll(s.tx) && DoTx(s, step).accepted == s.tx.accepted
  {}

  lemma QueueStep(s: State)
    requires Inv(s) && s.core.port.published == Open && s.tx.worker.Idle? && WorkLeft(s.tx) > 0 && JobsInAll(s.tx) < U32
    ensures
      var step := NextStep(s.tx);
      && CanTx(s, step) && WorkLeft(DoTx(s, step)) < WorkLeft(s.tx)
      && JobsInAll(DoTx(s, step)) <= JobsInAll(s.tx) && DoTx(s, step).accepted == s.tx.accepted
  {
    OpenPort(s.core.port);
    RingNeverFull(s.tx);
    SessionWriter.PopTestIsExactUntilWrap(s.tx.enqueued, s.tx.popped);
  }

  lemma {:induction false} DriveSends(s: State) returns (steps: seq<Step>, t: State)
    requires Inv(s) && SendInv(s) && s.core.port.published == Open && JobsInAll(s.tx) < U32
    ensures Leads(s, steps, t) && Inv(t) && SendInv(t) && t.core == s.core && t.tx.accepted == s.tx.accepted
    ensures WorkLeft(t.tx) == 0
    ensures
      var g := s.core.port.openGeneration;
      Of(t.tx.written, g, true) == Of(s.tx.written, g, true) + Of(Pending(s.tx), g, true)
    decreases WorkLeft(s.tx)
  {
    hide Inv, SendInv, CanTx, DoTx, WorkLeft, JobsInAll, NextStep, Of, Pending;
    if WorkLeft(s.tx) == 0 {
      NothingPending(s.tx);
      var done := Of(s.tx.written, s.core.port.openGeneration, true);
      assert done + [] == done;
      steps, t := [], s;
    } else {
      var step := NextStep(s.tx);
      if s.tx.worker.Idle? { QueueStep(s); } else { WorkerStep(s); }
      DriveKeepsAll(s);
      TxIsNotSerial(s, step);
      StepKeepsInv(s, step);
      StepKeepsSends(s, step);
      var rest;
      rest, t := DriveSends(Do(s, step));
      steps := [step] + rest;
      assert steps[1..] == rest;
    }
  }

  lemma TxIsNotSerial(s: State, step: Step)
    requires CanTx(s, step)
    ensures Can(s, step) && Do(s, step) == s.(tx := DoTx(s, step))
  {}

  lemma NothingPending(t: Lane)
    requires WorkLeft(t) == 0
    ensures Pending(t) == [] && forall g: nat :: Of(Pending(t), g, true) == []
  {}

  // None of these steps loses a payload of the session, the user's or an automatic one.
  lemma DriveKeepsAll(s: State)
    requires Inv(s) && s.core.port.published == Open && CanTx(s, NextStep(s.tx))
    ensures
      var t, g := DoTx(s, NextStep(s.tx)), s.core.port.openGeneration;
      Of(t.written, g, true) + Of(Pending(t), g, true) == Of(s.tx.written, g, true) + Of(Pending(s.tx), g, true)
  {
    hide Inv, CanTx, DoTx, Of, Pending;
    var step, g := NextStep(s.tx), s.core.port.openGeneration;
    if step.UserAction? { UserKeepsPending(s, g, true); }
    else if step.WorkerLoadGen? || step.WorkerLoadPort? { WorkerKeepsPending(s, step, g, true); }
    else { MoveKeepsPending(s, step); }
  }

  // From every reachable state of an open port whose session stays below 2^32 jobs, the
  // Dispatcher and the worker alone can go on until the backend has been given every user
  // payload the session accepted, in the order of acceptance.
  lemma EverySendCanBeWritten(states: seq<State>, steps: seq<Step>) returns (more: seq<Step>, t: State)
    requires IsRun(states, steps) && Init(states[0]) && |states| == |steps| + 1
    requires states[|steps|].core.port.published == Open && JobsInAll(states[|steps|].tx) < U32
    ensures Leads(states[|steps|], more, t) && t.core == states[|steps|].core
    ensures
      var g := t.core.port.openGeneration;
      User(t.tx.written, g) == OfSession(states[|steps|].tx.accepted, g)
  {
    hide IsRun, Init, Inv, OfSession;
    RunKeepsInv(states, steps, |steps|);
    RunKeepsSends(states, steps, |steps|);
    more, t := DriveSends(states[|steps|]);
    NothingPending(t.tx);
    assert User(t.tx.written, t.core.port.openGeneration) + [] == User(t.tx.written, t.core.port.openGeneration);
  }

  lemma AutoEffect(s: State, b: nat)
    requires Inv(s) && CanTx(s, AutoAction(b))
    ensures
      var t, p := DoTx(s, AutoAction(b)), s.core.port;
      && t.written == s.tx.written && JobsInAll(t) == JobsInAll(s.tx) + 1
      && Tx(b, s.tx.templateLen, p.openGeneration, true, p.openGeneration, s.tx.templateData) in Pending(t)
  {
    OpenPort(s.core.port);
    var t := DoTx(s, AutoAction(b));
    assert InHand(t.hand) == [t.hand.value] && t.hand.value in Pending(t);
  }

  // A tick of the auto-send timer on an open port: the copy of the template it takes is given
  // to the backend, whole and with the session it was made in, once Dispatcher and worker go on.
  lemma TickCanBeWritten(states: seq<State>, steps: seq<Step>, b: nat) returns (more: seq<Step>, t: State)
    requires IsRun(states, steps) && Init(states[0]) && |states| == |steps| + 1
    requires CanTx(states[|steps|], AutoAction(b)) && JobsInAll(states[|steps|].tx) + 1 < U32
    ensures Leads(states[|steps|], [AutoAction(b)] + more, t) && t.core == states[|steps|].core
    ensures
      var s, g := states[|steps|], t.core.port.openGeneration;
      Tx(b, s.tx.templateLen, g, true, g, s.tx.templateData) in t.tx.written
  {
    hide IsRun, Init, Inv, SendInv, Of, Pending, DoTx, JobsInAll, WorkLeft;
    var s := states[|steps|];
    RunKeepsInv(states, steps, |steps|);
    RunKeepsSends(states, steps, |steps|);
    TxIsNotSerial(s, AutoAction(b));
    StepKeepsInv(s, AutoAction(b));
    StepKeepsSends(s, AutoAction(b));
    AutoEffect(s, b);
    var a := Do(s, AutoAction(b));
    more, t := DriveSends(a);
    var g := s.core.port.openGeneration;
    var tx := Tx(b, s.tx.templateLen, g, true, g, s.tx.templateData);
    OfIn(Pending(a.tx), g, true, tx);
    OfIn(t.tx.written, g, true, tx);
    assert ([AutoAction(b)] + more)[1..] == more;
  }

  // ---- what was accepted ------------------------------------------------------------------------

  // The payloads of a run whose submission was accepted, read off the steps.
  function AcceptedSends(steps: seq<Step>): seq<seq<byte>> {
    if steps == [] then []
    else
      var front, last := steps[..|steps| - 1], steps[|steps| - 1];
      if last == SendSubmit(true) && Started(front).Some? then AcceptedSends(front) + [Started(front).value]
      else AcceptedSends(front)
  }

  // The last send started.
  function Started(steps: seq<Step>): Option<seq<byte>> {
    if steps == [] then None
    else if steps[|steps| - 1].SendStart? then Some(steps[|steps| - 1].data)
    else Started(steps[..|steps| - 1])
  }

  function Datas(txs: seq<Tx>): seq<seq<byte>> {
    if txs == [] then []
    else Datas(txs[..|txs| - 1]) + [txs[|txs| - 1].data]
  }

  lemma DatasPush(txs: seq<Tx>, tx: Tx)
    ensures Datas(txs + [tx]) == Datas(txs) + [tx.data]
  {
    assert (txs + [tx])[..|txs|] == txs;
  }

  predicate AcceptedInv(t: Lane, started: Option<seq<byte>>, accepted: seq<seq<byte>>) {
    && Datas(t.accepted) == accepted
    && (t.caller.Sending? ==> started == Some(t.caller.tx.data))
  }

  lemma TxStepKeepsAccepted(s: State, step: Step, started: Option<seq<byte>>, accepted: seq<seq<byte>>)
    requires AcceptedInv(s.tx, started, accepted) && CanTx(s, step)
    ensures
      AcceptedInv(DoTx(s, step), if step.SendStart? then Some(step.data) else started,
                  if step == SendSubmit(true) && started.Some? then accepted + [started.value] else accepted)
  {
    hide Datas;
    if step == SendSubmit(true) { DatasPush(s.tx.accepted, s.tx.caller.tx); }
  }

  lemma StepKeepsAccepted(s: State, step: Step, started: Option<seq<byte>>, accepted: seq<seq<byte>>)
    requires AcceptedInv(s.tx, started, accepted) && Can(s, step)
    ensures
      AcceptedInv(Do(s, step).tx, if step.SendStart? then Some(step.data) else started,
                  if step == SendSubmit(true) && started.Some? then accepted + [started.value] else accepted)
  {
    hide CanTx, DoTx, Datas, SerialSystem.Can, SerialSystem.Do;
    if !step.Serial? { TxStepKeepsAccepted(s, step, started, accepted); }
  }

  lemma AcceptedNext(steps: seq<Step>, k: nat)
    requires 0 < k <= |steps|
    ensures
      var started, accepted, step := Started(steps[..k - 1]), AcceptedSends(steps[..k - 1]), steps[k - 1];
      && Started(steps[..k]) == (if step.SendStart? then Some(step.data) else started)
      && AcceptedSends(steps[..k]) ==
           (if step == SendSubmit(true) && started.Some? then accepted + [started.value] else accepted)
  {
    assert steps[..k][..k - 1] == steps[..k - 1];
  }

  lemma InitAccepted(s: State, steps: seq<Step>)
    requires Init(s)
    ensures AcceptedInv(s.tx, Started(steps[..0]), AcceptedSends(steps[..0]))
  {}

  // The accepted payloads are, byte for byte and in order, those the caller sent and that were
  // accepted.
  lemma {:induction false} AcceptedAreTheSends(states: seq<State>, steps: seq<Step>, k: nat)
    requires IsRun(states, steps) && Init(states[0]) && k < |states|
    ensures k <= |steps| && AcceptedInv(states[k].tx, Started(steps[..k]), AcceptedSends(steps[..k]))
  {
    hide *;
    RunShape(states, steps);
    if k == 0 {
      InitAccepted(states[0], steps);
    } else {
      AcceptedAreTheSends(states, steps, k - 1);
      RunStep(states, steps, k - 1);
      AcceptedNext(steps, k);
      StepKeepsAccepted(states[k - 1], steps[k - 1], Started(steps[..k - 1]), AcceptedSends(steps[..k - 1]));
    }
  }

  // ---- the template ---------------------------------------------------------------------------

  // What a sequence of template requests amounts to: the last valid one decides.
  function Template(requests: seq<Config>): (Option<nat>, nat, seq<byte>) {
    if requests == [] then (None, 0, [])
    else
      var last := requests[|requests| - 1];
      if last.interval == 0 then (None, 0, [])
      else if last.block.Some? && 0 < last.len <= BLOCK_BYTES then (last.block, last.len, last.data)
      else Template(requests[..|requests| - 1])
  }

  predicate TemplateInv(t: Lane) {
    && |t.configs| <= |t.requested| && t.configs == t.requested[|t.requested| - |t.configs|..]
    && (t.template, t.templateLen, t.templateData) == Template(t.requested[..|t.requested| - |t.configs|])
  }

  lemma ConfigKeepsTemplate(s: State)
    requires TemplateInv(s.tx) && CanTx(s, ConfigAction)
    ensures TemplateInv(DoTx(s, ConfigAction))
  {
    var t := s.tx;
    var n := |t.requested| - |t.configs|;
    assert t.requested[n] == t.configs[0] && t.requested[..n + 1][..n] == t.requested[..n];
  }

  lemma RequestKeepsTemplate(s: State, accepted: bool)
    requires TemplateInv(s.tx) && CanTx(s, ConfigSubmit(accepted))
    ensures TemplateInv(DoTx(s, ConfigSubmit(accepted)))
  {
    var t, m := s.tx, DoTx(s, ConfigSubmit(accepted));
    var n := |t.requested| - |t.configs|;
    assert m.requested[..n] == t.requested[..n];
  }

  lemma OthersKeepTemplate(s: State, step: Step)
    requires CanTx(s, step) && !step.ConfigAction? && !step.ConfigSubmit?
    ensures
      var t := DoTx(s, step);
      && t.template == s.tx.template && t.templateLen == s.tx.templateLen && t.templateData == s.tx.templateData
      && t.configs == s.tx.configs && t.requested == s.tx.requested
  {}

  lemma StepKeepsTemplate(s: State, step: Step)
    requires TemplateInv(s.tx) && Can(s, step)
    ensures TemplateInv(Do(s, step).tx)
  {
    hide CanTx, DoTx, Template, SerialSystem.Can, SerialSystem.Do;
    if step.ConfigAction? { ConfigKeepsTemplate(s); }
    else if step.ConfigSubmit? { RequestKeepsTemplate(s, step.accepted); }
    else if !step.Serial? { OthersKeepTemplate(s, step); }
  }

  lemma InitTemplate(s: State)
    requires Init(s)
    ensures TemplateInv(s.tx)
  {}

  // The auto-send template is at all times what the last valid request handled so far asked
  // for, and the requests not yet handled are the latest ones, in order.
  lemma {:induction false} TemplateIsLastRequest(states: seq<State>, steps: seq<Step>, k: nat)
    requires IsRun(states, steps) && Init(states[0]) && k < |states|
    ensures TemplateInv(states[k].tx)
  {
    hide *;
    RunShape(states, steps);
    if k == 0 {
      InitTemplate(states[0]);
    } else {
      RunStep(states, steps, k - 1);
      TemplateIsLastRequest(states, steps, k - 1);
      StepKeepsTemplate(states[k - 1], steps[k - 1]);
    }
  }
}
