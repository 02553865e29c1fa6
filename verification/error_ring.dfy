// ErrorRing of xcom_core/src/runtime/xcom_core.hpp: a 128-slot sequence-numbered ring with
// any number of producers and one consumer. Positions are the code's 32-bit counters; the
// unbounded positions beside them are history.
module ErrorRing {
  import opened Bytes

  const SLOTS := 128                 // kErrorRingCount
  const HALF := 0x8000_0000

  // An entry is written and copied field by field, never atomically.
  datatype Entry = Entry(code: int, text: seq<byte>)

  datatype Slot = Slot(sequence: nat, entry: Entry)

  datatype Producer =
    | Away
    | Probing(entry: Entry, pos: nat, at: nat)     // position loaded
    | Claiming(entry: Entry, pos: nat, at: nat)    // slot seen free at that position
    | Filling(entry: Entry, at: nat, codeDone: bool, textDone: bool)

  datatype Consumer = Waiting | Copying(code: Option<int>, text: Option<seq<byte>>)

  datatype State = State(
    enqueue: nat,                 // enqueue_pos_
    dequeue: nat,                 // dequeue_pos_
    slots: seq<Slot>,
    producers: map<nat, Producer>,
    consumer: Consumer,
    claimed: seq<Entry>,          // history: entries in claim order
    taken: seq<Entry>,            // history: what take() returned
    dropped: nat)

  datatype Action =
    | LoadPosition(entry: Entry)
    | Probe                       // load the slot sequence and branch on the difference
    | Claim                       // CAS on enqueue_pos_ succeeds
    | ClaimFails                  // it fails and reloads the position
    | WriteCode
    | WriteText
    | Publish
    | TakeProbe
    | CopyCode
    | CopyText
    | TakeDone

  // static_cast<int32_t>(a - b) on 32-bit operands.
  function Diff32(a: int, b: int): int {
    var d := (a - b) % U32;
    if d < HALF then d else d - U32
  }

  lemma DiffIsExact(a: int, b: int)
    requires -HALF <= a - b < HALF
    ensures Diff32(a % U32, b % U32) == a - b
  {
    var d := (a % U32 - b % U32) % U32;
    assert d == (a - b) % U32;
  }

  function E(s: State): nat { |s.claimed| }
  function D(s: State): nat { |s.taken| }

  predicate Can(s: State, t: nat, a: Action) {
    && |s.slots| == SLOTS
    && match a
       case LoadPosition(_) => t in s.producers && s.producers[t].Away?
       case Probe => t in s.producers && s.producers[t].Probing?
       case Claim => t in s.producers && s.producers[t].Claiming? && s.enqueue == s.producers[t].pos
       case ClaimFails => t in s.producers && s.producers[t].Claiming?
       case WriteCode => t in s.producers && s.producers[t].Filling? && !s.producers[t].codeDone
       case WriteText => t in s.producers && s.producers[t].Filling? && !s.producers[t].textDone
       case Publish =>
         t in s.producers && s.producers[t].Filling? && s.producers[t].codeDone && s.producers[t].textDone
       case TakeProbe => s.consumer.Waiting?
       case CopyCode => s.consumer.Copying? && s.consumer.code.None?
       case CopyText => s.consumer.Copying? && s.consumer.text.None?
       case TakeDone => s.consumer.Copying? && s.consumer.code.Some? && s.consumer.text.Some?
  }

  function Goto(s: State, t: nat, p: Producer): State { s.(producers := s.producers[t := p]) }

  function Put(s: State, i: nat, slot: Slot): State
    requires i < |s.slots|
  {
    s.(slots := s.slots[i := slot])
  }

  function Do(s: State, t: nat, a: Action): State
    requires Can(s, t, a)
  {
    match a
    case LoadPosition(e) => Goto(s, t, Probing(e, s.enqueue, E(s)))
    case Probe =>
      var p := s.producers[t];
      var difference := Diff32(s.slots[p.pos % SLOTS].sequence, p.pos);
      if difference == 0 then Goto(s, t, Claiming(p.entry, p.pos, p.at))
      else if difference < 0 then Goto(s.(dropped := (s.dropped + 1) % U32), t, Away)
      else Goto(s, t, Probing(p.entry, s.enqueue, E(s)))
    case Claim =>
      var p := s.producers[t];
      Goto(s.(enqueue := (s.enqueue + 1) % U32, claimed := s.claimed + [p.entry]), t,
           Filling(p.entry, p.at, false, false))
    case ClaimFails =>
      var p := s.producers[t];
      Goto(s, t, Probing(p.entry, s.enqueue, E(s)))
    case WriteCode =>
      var p := s.producers[t];
      var i := p.at % SLOTS;
      Goto(Put(s, i, s.slots[i].(entry := s.slots[i].entry.(code := p.entry.code))), t, p.(codeDone := true))
    case WriteText =>
      var p := s.producers[t];
      var i := p.at % SLOTS;
      Goto(Put(s, i, s.slots[i].(entry := s.slots[i].entry.(text := p.entry.text))), t, p.(textDone := true))
    case Publish =>
      var p := s.producers[t];
      var i := p.at % SLOTS;
      Goto(Put(s, i, s.slots[i].(sequence := (p.at + 1) % U32)), t, Away)
    case TakeProbe =>
      if Diff32(s.slots[s.dequeue % SLOTS].sequence, s.dequeue + 1) != 0 then s
      else s.(consumer := Copying(None, None))
    case CopyCode =>
      s.(consumer := s.consumer.(code := Some(s.slots[s.dequeue % SLOTS].entry.code)))
    case CopyText =>
      s.(consumer := s.consumer.(text := Some(s.slots[s.dequeue % SLOTS].entry.text)))
    case TakeDone =>
      var i := s.dequeue % SLOTS;
      Put(s, i, s.slots[i].(sequence := (s.dequeue + SLOTS) % U32))
        .(dequeue := (s.dequeue + 1) % U32,
          taken := s.taken + [Entry(s.consumer.code.value, s.consumer.text.value)],
          consumer := Waiting)
  }

  // No producer sleeps through (almost) 2^31 claims between loading a position and using it.
  predicate NoStall(s: State, t: nat) {
    t in s.producers && (s.producers[t].Probing? || s.producers[t].Claiming?) ==>
      E(s) - s.producers[t].at + SLOTS < HALF
  }

  ghost predicate Init(s: State) {
    && s.enqueue == 0 && s.dequeue == 0 && s.dropped == 0
    && |s.slots| == SLOTS
    && (forall i :: 0 <= i < SLOTS ==> s.slots[i].sequence == i)
    && (forall t :: t in s.producers ==> s.producers[t].Away?)
    && s.consumer == Waiting && s.claimed == [] && s.taken == []
  }

  // ---- the invariant --------------------------------------------------------

  // Position p is claimed and its producer has not published yet.
  ghost predicate InFlight(s: State, p: nat) {
    exists t :: t in s.producers && s.producers[t].Filling? && s.producers[t].at == p
  }

  // The slot of each position in the window D .. D + 128: free beyond E, being filled, or full.
  ghost predicate WindowAt(s: State, p: nat)
    requires |s.slots| == SLOTS
  {
    var slot := s.slots[p % SLOTS];
    if p >= E(s) then slot.sequence == p % U32
    else if InFlight(s, p) then slot.sequence == p % U32
    else slot.sequence == (p + 1) % U32 && slot.entry == s.claimed[p]
  }

  ghost predicate ProducerInv(s: State, p: Producer)
    requires |s.slots| == SLOTS
  {
    match p
    case Away => true
    case Probing(_, pos, at) => at <= E(s) && pos == at % U32
    case Claiming(_, pos, at) => at <= E(s) && pos == at % U32 && (at == E(s) ==> at < D(s) + SLOTS)
    case Filling(e, at, codeDone, textDone) =>
      && D(s) <= at < E(s) && e == s.claimed[at]
      && (codeDone ==> s.slots[at % SLOTS].entry.code == e.code)
      && (textDone ==> s.slots[at % SLOTS].entry.text == e.text)
  }

  ghost predicate ConsumerInv(s: State) {
    s.consumer.Copying? ==>
      && D(s) < E(s) && !InFlight(s, D(s))
      && (s.consumer.code.Some? ==> s.consumer.code.value == s.claimed[D(s)].code)
      && (s.consumer.text.Some? ==> s.consumer.text.value == s.claimed[D(s)].text)
  }

  ghost predicate Inv(s: State) {
    && |s.slots| == SLOTS
    && D(s) <= E(s) <= D(s) + SLOTS
    && s.enqueue == E(s) % U32 && s.dequeue == D(s) % U32
    && s.taken == s.claimed[..D(s)]
    && (forall p :: D(s) <= p < D(s) + SLOTS ==> WindowAt(s, p))
    && (forall t :: t in s.producers ==> ProducerInv(s, s.producers[t]))
    && (forall t, u | t in s.producers && u in s.producers && t != u ::
          s.producers[t].Filling? && s.producers[u].Filling? ==> s.producers[t].at != s.producers[u].at)
    && ConsumerInv(s)
  }

  lemma SlotOf(p: nat)
    ensures (p % U32) % SLOTS == p % SLOTS
  {}

  // Two positions of one window share no slot.
  lemma SlotsDisjoint(p: nat, q: nat)
    requires p != q && -SLOTS < p - q < SLOTS
    ensures p % SLOTS != q % SLOTS
  {}

  // One lap later a position is in the same slot.
  lemma NextLap(p: nat)
    ensures (p + SLOTS) % SLOTS == p % SLOTS
  {}

  lemma AddMod(a: nat, k: nat)
    ensures (a % U32 + k) % U32 == (a + k) % U32
  {}

  // The window position that currently holds the slot of a stale position.
  function Current(s: State, at: nat): (p: nat)
    requires at < D(s)
    ensures p % SLOTS == at % SLOTS && D(s) <= p < D(s) + SLOTS && p >= at + SLOTS
  {
    at + SLOTS * ((D(s) - at + SLOTS - 1) / SLOTS)
  }

  // What a producer learns from one probe: free exactly when its position is still to be
  // claimed, full exactly when 128 claimed entries are waiting, stale otherwise.
  lemma ProbeVerdict(s: State, t: nat)
    requires Inv(s) && Can(s, t, Probe) && NoStall(s, t)
    ensures
      var p := s.producers[t];
      var difference := Diff32(s.slots[p.pos % SLOTS].sequence, p.pos);
      && (difference < 0 <==> p.at == E(s) && E(s) == D(s) + SLOTS)
      && (difference == 0 <==> D(s) <= p.at < D(s) + SLOTS && (p.at == E(s) || InFlight(s, p.at)))
  {
    hide InFlight, WindowAt, Diff32;
    assert ProducerInv(s, s.producers[t]);
    var at := s.producers[t].at;
    if at == D(s) + SLOTS {
      ProbeFull(s);
    } else if at >= D(s) {
      ProbeCurrent(s, at);
    } else {
      ProbeStale(s, at);
    }
  }

  function Seen(s: State, at: nat): int
    requires |s.slots| == SLOTS
  {
    Diff32(s.slots[(at % U32) % SLOTS].sequence, at % U32)
  }

  lemma ProbeFull(s: State)
    requires Inv(s)
    ensures Seen(s, D(s) + SLOTS) < 0
  {
    hide Diff32;
    var at := D(s) + SLOTS;
    SlotOf(at);
    NextLap(D(s));
    assert WindowAt(s, D(s));
    DiffIsExact(D(s), at);
    DiffIsExact(D(s) + 1, at);
  }

  lemma ProbeCurrent(s: State, at: nat)
    requires Inv(s) && D(s) <= at <= E(s) && at < D(s) + SLOTS
    ensures Seen(s, at) == if at == E(s) || InFlight(s, at) then 0 else 1
  {
    hide Diff32;
    SlotOf(at);
    assert WindowAt(s, at);
    DiffIsExact(at, at);
    DiffIsExact(at + 1, at);
  }

  lemma ProbeStale(s: State, at: nat)
    requires Inv(s) && at < D(s) && E(s) - at + SLOTS < HALF
    ensures Seen(s, at) > 0
  {
    hide Diff32;
    SlotOf(at);
    var q := Current(s, at);
    assert WindowAt(s, q);
    DiffIsExact(q, at);
    DiffIsExact(q + 1, at);
  }

  lemma InFlightFrame(s: State, s': State, t: nat, p: nat)
    requires t in s.producers
    requires forall u :: u in s.producers && u != t ==> u in s'.producers && s'.producers[u] == s.producers[u]
    requires s'.producers.Keys == s.producers.Keys
    requires s.producers[t].Filling? && s.producers[t].at == p <==>
             s'.producers[t].Filling? && s'.producers[t].at == p
    ensures InFlight(s, p) <==> InFlight(s', p)
  {}

  lemma InFlightSame(s: State, s': State, p: nat)
    requires s'.producers == s.producers
    ensures InFlight(s, p) <==> InFlight(s', p)
  {}

  lemma ProducerMoves(s: State, t: nat, p: Producer, dropped: nat)
    requires Inv(s) && t in s.producers && !s.producers[t].Filling? && !p.Filling? && ProducerInv(s, p)
    ensures Inv(Goto(s.(dropped := dropped), t, p))
  {
    var s' := Goto(s.(dropped := dropped), t, p);
    forall q | D(s) <= q < D(s) + SLOTS ensures WindowAt(s', q) {
      assert WindowAt(s, q);
      InFlightFrame(s, s', t, q);
    }
    InFlightFrame(s, s', t, D(s));
    forall u | u in s'.producers ensures ProducerInv(s', s'.producers[u]) {
      assert ProducerInv(s, s.producers[u]);
    }
  }

  // Steps that only move a producer between Away, Probing and Claiming.
  lemma MoveKeepsInv(s: State, t: nat, a: Action)
    requires Inv(s) && Can(s, t, a) && NoStall(s, t)
    requires a.LoadPosition? || a.Probe? || a.ClaimFails?
    ensures Inv(Do(s, t, a))
  {
    hide InFlight, WindowAt, Diff32;
    var s' := Do(s, t, a);
    assert ProducerInv(s, s.producers[t]);
    if a.Probe? { ProbeVerdict(s, t); }
    ProducerMoves(s, t, s'.producers[t], s'.dropped);
  }

  // The 32-bit CAS cannot succeed on a position that has been claimed before.
  lemma ClaimTakesNext(s: State, t: nat)
    requires Inv(s) && Can(s, t, Claim) && NoStall(s, t)
    ensures s.producers[t].at == E(s) < D(s) + SLOTS
  {}

  lemma ClaimKeepsWindow(s: State, t: nat, q: nat)
    requires Inv(s) && Can(s, t, Claim) && s.producers[t].at == E(s)
    requires D(s) <= q < D(s) + SLOTS
    ensures WindowAt(Do(s, t, Claim), q)
    ensures q != E(s) ==> (InFlight(s, q) <==> InFlight(Do(s, t, Claim), q))
  {
    var s' := Do(s, t, Claim);
    assert WindowAt(s, q);
    if q == E(s) {
      assert s'.producers[t].Filling? && s'.producers[t].at == q;
    } else {
      InFlightFrame(s, s', t, q);
    }
  }

  lemma ClaimKeepsInv(s: State, t: nat)
    requires Inv(s) && Can(s, t, Claim) && NoStall(s, t)
    ensures Inv(Do(s, t, Claim))
  {
    var s' := Do(s, t, Claim);
    ClaimTakesNext(s, t);
    AddMod(E(s), 1);
    forall u | u in s'.producers ensures ProducerInv(s', s'.producers[u]) {
      assert ProducerInv(s, s.producers[u]);
    }
    forall q | D(s) <= q < D(s) + SLOTS ensures WindowAt(s', q) {
      ClaimKeepsWindow(s, t, q);
    }
    ClaimKeepsWindow(s, t, D(s));
    forall u | u in s.producers && s.producers[u].Filling? ensures s.producers[u].at < E(s) {
      assert ProducerInv(s, s.producers[u]);
    }
  }

  lemma WriteKeepsWindow(s: State, t: nat, a: Action, q: nat)
    requires Inv(s) && Can(s, t, a) && (a.WriteCode? || a.WriteText?) && D(s) <= q < D(s) + SLOTS
    ensures WindowAt(Do(s, t, a), q)
  {
    hide ConsumerInv;
    var p := s.producers[t];
    assert ProducerInv(s, p) && InFlight(s, p.at) && WindowAt(s, q);
    InFlightFrame(s, Do(s, t, a), t, q);
    if q != p.at { SlotsDisjoint(q, p.at); }
  }

  lemma WriteKeepsInv(s: State, t: nat, a: Action)
    requires Inv(s) && Can(s, t, a) && (a.WriteCode? || a.WriteText?)
    ensures Inv(Do(s, t, a))
  {
    hide WindowAt;
    var s' := Do(s, t, a);
    var p := s.producers[t];
    assert ProducerInv(s, p);
    assert InFlight(s, p.at);
    forall q | D(s) <= q < D(s) + SLOTS ensures WindowAt(s', q) { WriteKeepsWindow(s, t, a, q); }
    InFlightFrame(s, s', t, D(s));
    forall u | u in s'.producers ensures ProducerInv(s', s'.producers[u]) {
      assert ProducerInv(s, s.producers[u]);
      if u != t && s.producers[u].Filling? { SlotsDisjoint(s.producers[u].at, p.at); }
    }
  }

  lemma PublishKeepsWindow(s: State, t: nat, q: nat)
    requires Inv(s) && Can(s, t, Publish) && D(s) <= q < D(s) + SLOTS
    ensures WindowAt(Do(s, t, Publish), q)
  {
    hide ConsumerInv;
    var s', at := Do(s, t, Publish), s.producers[t].at;
    assert ProducerInv(s, s.producers[t]) && WindowAt(s, q);
    if q != at {
      SlotsDisjoint(q, at);
      InFlightFrame(s, s', t, q);
    } else {
      assert !InFlight(s', q);
    }
  }

  lemma PublishKeepsInv(s: State, t: nat)
    requires Inv(s) && Can(s, t, Publish)
    ensures Inv(Do(s, t, Publish))
  {
    hide WindowAt;
    var s' := Do(s, t, Publish);
    var p := s.producers[t];
    assert ProducerInv(s, p);
    forall q | D(s) <= q < D(s) + SLOTS ensures WindowAt(s', q) { PublishKeepsWindow(s, t, q); }
    if D(s) != p.at { InFlightFrame(s, s', t, D(s)); }
    assert InFlight(s, p.at);
    forall u | u in s'.producers ensures ProducerInv(s', s'.producers[u]) {
      assert ProducerInv(s, s.producers[u]);
      if u != t && s.producers[u].Filling? { SlotsDisjoint(s.producers[u].at, p.at); }
    }
  }

  lemma ConsumerMoves(s: State, c: Consumer)
    requires Inv(s) && ConsumerInv(s.(consumer := c))
    ensures Inv(s.(consumer := c))
  {
    var s' := s.(consumer := c);
    forall q | D(s) <= q < D(s) + SLOTS ensures WindowAt(s', q) {
      assert WindowAt(s, q);
      InFlightSame(s, s', q);
    }
    forall u | u in s'.producers ensures ProducerInv(s', s'.producers[u]) {
      assert ProducerInv(s, s.producers[u]);
    }
  }

  // take() goes ahead exactly on a position that is claimed and published.
  lemma TakeVerdict(s: State)
    requires Inv(s)
    ensures Diff32(s.slots[s.dequeue % SLOTS].sequence, s.dequeue + 1) == 0 <==> D(s) < E(s) && !InFlight(s, D(s))
  {
    hide Diff32, ProducerInv, ConsumerInv;
    assert WindowAt(s, D(s));
    SlotOf(D(s));
    DiffIsExact(D(s), D(s) + 1);
    DiffIsExact(D(s) + 1, D(s) + 1);
    NextDiff(s.slots[s.dequeue % SLOTS].sequence, D(s));
  }

  lemma NextDiff(a: int, d: nat)
    ensures Diff32(a, d % U32 + 1) == Diff32(a, (d + 1) % U32)
  {}

  lemma TakeProbeKeepsInv(s: State, t: nat)
    requires Inv(s) && Can(s, t, TakeProbe)
    ensures Inv(Do(s, t, TakeProbe))
  {
    hide Diff32, InFlight, WindowAt, ProducerInv;
    TakeVerdict(s);
    if D(s) < E(s) && !InFlight(s, D(s)) {
      InFlightSame(s, s.(consumer := Copying(None, None)), D(s));
      ConsumerMoves(s, Copying(None, None));
    }
  }

  lemma CopyKeepsInv(s: State, t: nat, a: Action)
    requires Inv(s) && Can(s, t, a) && (a.CopyCode? || a.CopyText?)
    ensures Inv(Do(s, t, a))
  {
    hide InFlight, ProducerInv;
    var c := Do(s, t, a).consumer;
    assert WindowAt(s, D(s));
    SlotOf(D(s));
    InFlightSame(s, s.(consumer := c), D(s));
    ConsumerMoves(s, c);
  }

  lemma TakeDoneKeepsWindow(s: State, t: nat, q: nat)
    requires Inv(s) && Can(s, t, TakeDone) && D(s) + 1 <= q < D(s) + 1 + SLOTS
    ensures WindowAt(Do(s, t, TakeDone), q)
  {
    hide InFlight, ProducerInv, ConsumerInv;
    var s' := Do(s, t, TakeDone);
    SlotOf(D(s));
    InFlightSame(s, s', q);
    if q == D(s) + SLOTS {
      AddMod(D(s), SLOTS);
      NextLap(D(s));
    } else {
      assert WindowAt(s, q);
      SlotsDisjoint(q, D(s));
      assert s'.slots[q % SLOTS] == s.slots[q % SLOTS];
    }
  }

  lemma TakeDoneKeepsInv(s: State, t: nat)
    requires Inv(s) && Can(s, t, TakeDone)
    ensures Inv(Do(s, t, TakeDone))
  {
    var s' := Do(s, t, TakeDone);
    SlotOf(D(s));
    assert s'.taken == s.claimed[..D(s) + 1];
    forall u | u in s.producers && s.producers[u].Filling? ensures s.producers[u].at != D(s) {
      assert ProducerInv(s, s.producers[u]);
    }
    AddMod(D(s), 1);
    forall q | D(s) + 1 <= q < D(s) + 1 + SLOTS ensures WindowAt(s', q) {
      TakeDoneKeepsWindow(s, t, q);
    }
    forall u | u in s'.producers ensures ProducerInv(s', s'.producers[u]) {
      assert ProducerInv(s, s.producers[u]);
      if s.producers[u].Filling? { SlotsDisjoint(s.producers[u].at, D(s)); }
    }
  }

  lemma StepKeepsInv(s: State, t: nat, a: Action)
    requires Inv(s) && Can(s, t, a) && NoStall(s, t)
    ensures Inv(Do(s, t, a))
  {
    hide Inv, NoStall;
    match a
    case Claim => ClaimKeepsInv(s, t);
    case WriteCode => WriteKeepsInv(s, t, a);
    case WriteText => WriteKeepsInv(s, t, a);
    case Publish => PublishKeepsInv(s, t);
    case TakeProbe => TakeProbeKeepsInv(s, t);
    case CopyCode => CopyKeepsInv(s, t, a);
    case CopyText => CopyKeepsInv(s, t, a);
    case TakeDone => TakeDoneKeepsInv(s, t);
    case _ => MoveKeepsInv(s, t, a);
  }

  // ---- runs -----------------------------------------------------------------

  datatype Event = Event(t: nat, a: Action)

  ghost predicate Run(states: seq<State>, events: seq<Event>) {
    && |states| == |events| + 1
    && forall i :: 0 <= i < |events| ==>
         && Can(states[i], events[i].t, events[i].a)
         && NoStall(states[i], events[i].t)
         && states[i + 1] == Do(states[i], events[i].t, events[i].a)
  }

  lemma {:induction false} RunKeepsInv(states: seq<State>, events: seq<Event>, k: nat)
    requires Run(states, events) && Init(states[0]) && k < |states|
    ensures Inv(states[k])
  {
    if k == 0 {
      forall p | 0 <= p < SLOTS ensures WindowAt(states[0], p) {}
    } else {
      RunKeepsInv(states, events, k - 1);
      StepKeepsInv(states[k - 1], events[k - 1].t, events[k - 1].a);
    }
  }

  // The ring is a FIFO of capacity 128: what has been taken is, entry for entry and in claim
  // order, the front of what has been claimed, and at most 128 claimed entries wait.
  lemma RingIsBoundedFifo(states: seq<State>, events: seq<Event>, k: nat)
    requires Run(states, events) && Init(states[0]) && k < |states|
    ensures states[k].taken <= states[k].claimed
    ensures |states[k].claimed| - |states[k].taken| <= SLOTS
  {
    RunKeepsInv(states, events, k);
  }

  // The ring is full, and the producer's position is still the next one to claim.
  ghost predicate FullFor(s: State, t: nat) {
    && t in s.producers && s.producers[t].Probing?
    && s.producers[t].at == |s.claimed| == |s.taken| + SLOTS
  }

  // push() discards an entry exactly when it finds 128 claimed entries not yet taken, and no
  // step ever changes a published entry that has not been taken.
  lemma DropOnlyWhenFull(states: seq<State>, events: seq<Event>, k: nat)
    requires Run(states, events) && Init(states[0]) && k < |events|
    ensures
      var s, s' := states[k], states[k + 1];
      && (s'.dropped != s.dropped ==> |s.claimed| == |s.taken| + SLOTS)
      && (events[k].a.Probe? && FullFor(s, events[k].t) ==> s'.dropped == (s.dropped + 1) % U32)
      && (forall p :: |s'.taken| <= p < |s.claimed| && !InFlight(s, p) ==>
            s'.slots[p % SLOTS] == s.slots[p % SLOTS] && s.slots[p % SLOTS].entry == s.claimed[p])
  {
    hide Diff32;
    RunKeepsInv(states, events, k);
    var s, s', e := states[k], states[k + 1], events[k];
    if e.a.Probe? { ProbeVerdict(s, e.t); }
    forall p | |s'.taken| <= p < |s.claimed| && !InFlight(s, p)
      ensures s'.slots[p % SLOTS] == s.slots[p % SLOTS] && s.slots[p % SLOTS].entry == s.claimed[p]
    {
      assert WindowAt(s, p);
      if e.t in s.producers && s.producers[e.t].Filling? {
        assert ProducerInv(s, s.producers[e.t]);
        assert InFlight(s, s.producers[e.t].at);
        SlotsDisjoint(p, s.producers[e.t].at);
      }
      if e.a.TakeDone? {
        SlotOf(D(s));
        SlotsDisjoint(p, D(s));
      }
    }
  }

  // ---- undisturbed calls --------------------------------------------------------------

  // take() when nobody interferes.
  function TakeAlone(s: State, t: nat): State
    requires |s.slots| == SLOTS && s.consumer.Waiting?
  {
    var a := Do(s, t, TakeProbe);
    if a.consumer.Waiting? then a else Do(Do(Do(a, t, CopyCode), t, CopyText), t, TakeDone)
  }

  // It takes the front entry exactly if that is published, and otherwise changes nothing.
  lemma TakeAloneTakes(s: State, t: nat)
    requires Inv(s) && s.consumer.Waiting?
    ensures
      var r, d := TakeAlone(s, t), |s.taken|;
      if d < |s.claimed| && !InFlight(s, d)
      then r.taken == s.taken + [s.claimed[d]] && r.claimed == s.claimed && r.producers == s.producers && r.consumer.Waiting?
      else r == s
  {
    hide InFlight, WindowAt, ProducerInv, Diff32;
    TakeVerdict(s);
    var a := Do(s, t, TakeProbe);
    TakeProbeKeepsInv(s, t);
    if a.consumer.Copying? {
      CopyKeepsInv(a, t, CopyCode);
      var b := Do(a, t, CopyCode);
      CopyKeepsInv(b, t, CopyText);
      var c := Do(b, t, CopyText);
      assert Entry(c.consumer.code.value, c.consumer.text.value) == s.claimed[D(s)];
    }
  }

  // push() when nobody interferes.
  function PushAlone(s: State, t: nat, e: Entry): State
    requires |s.slots| == SLOTS && t in s.producers && s.producers[t].Away?
  {
    var a := Do(s, t, LoadPosition(e));
    var b := Do(a, t, Probe);
    if !b.producers[t].Claiming? || b.producers[t].pos != b.enqueue then b
    else Do(Do(Do(Do(b, t, Claim), t, WriteCode), t, WriteText), t, Publish)
  }

  // It puts the entry behind all claimed ones, published, exactly if fewer than 128 wait, and
  // otherwise counts one drop.
  lemma PushAlonePushes(s: State, t: nat, e: Entry)
    requires Inv(s) && t in s.producers && s.producers[t].Away?
    ensures
      var r := PushAlone(s, t, e);
      if |s.claimed| < |s.taken| + SLOTS
      then r.claimed == s.claimed + [e] && r.taken == s.taken && r.dropped == s.dropped
           && r.producers == s.producers && !InFlight(r, |s.claimed|)
           && r.slots[|s.claimed| % SLOTS].entry == e
      else r == s.(dropped := (s.dropped + 1) % U32)
  {
    hide Inv, InFlight, WindowAt, Diff32;
    InvShape(s);
    ProbeAlone(s, t, e);
    var b := Do(Do(s, t, LoadPosition(e)), t, Probe);
    if E(s) < D(s) + SLOTS {
      ClaimAlone(b, t, e);
      FillAlone(Do(b, t, Claim), t, e);
      assert s.producers[t := Away] == s.producers;
    }
  }

  lemma InvShape(s: State)
    requires Inv(s)
    ensures |s.slots| == SLOTS
  {}

  lemma ProbeAlone(s: State, t: nat, e: Entry)
    requires Inv(s) && t in s.producers && s.producers[t].Away?
    ensures
      var b := Do(Do(s, t, LoadPosition(e)), t, Probe);
      if E(s) < D(s) + SLOTS then Inv(b) && b == Goto(s, t, Claiming(e, s.enqueue, E(s)))
      else b == s.(dropped := (s.dropped + 1) % U32)
  {
    hide InFlight, WindowAt, Diff32;
    var a := Do(s, t, LoadPosition(e));
    StepKeepsInv(s, t, LoadPosition(e));
    ProbeVerdict(a, t);
    StepKeepsInv(a, t, Probe);
    assert a.producers[t := Away] == s.producers;
    var claiming := Claiming(e, s.enqueue, E(s));
    assert a.producers[t := claiming] == s.producers[t := claiming];
  }

  lemma ClaimAlone(b: State, t: nat, e: Entry)
    requires Inv(b) && t in b.producers && b.producers[t] == Claiming(e, b.enqueue, E(b))
    ensures Can(b, t, Claim) && Inv(Do(b, t, Claim))
    ensures
      var c := Do(b, t, Claim);
      && c.claimed == b.claimed + [e] && c.taken == b.taken && c.dropped == b.dropped
      && c.producers == b.producers[t := Filling(e, E(b), false, false)]
  {
    StepKeepsInv(b, t, Claim);
  }

  // Writing the two parts and publishing, from a fresh claim.
  lemma FillAlone(c: State, t: nat, e: Entry)
    requires Inv(c) && t in c.producers && E(c) > 0 && c.producers[t] == Filling(e, E(c) - 1, false, false)
    ensures
      var r := Do(Do(Do(c, t, WriteCode), t, WriteText), t, Publish);
      && r.claimed == c.claimed && r.taken == c.taken && r.dropped == c.dropped
      && r.producers == c.producers[t := Away] && !InFlight(r, E(c) - 1)
      && |r.slots| == SLOTS && r.slots[(E(c) - 1) % SLOTS].entry == c.claimed[E(c) - 1]
  {
    hide InFlight, WindowAt, ConsumerInv;
    var d := Do(c, t, WriteCode);
    StepKeepsInv(c, t, WriteCode);
    var f := Do(d, t, WriteText);
    StepKeepsInv(d, t, WriteText);
    StepKeepsInv(f, t, Publish);
    PublishEnds(f, t);
  }

  lemma PublishEnds(s: State, t: nat)
    requires Inv(s) && Can(s, t, Publish) && Inv(Do(s, t, Publish))
    ensures
      var r, at := Do(s, t, Publish), s.producers[t].at;
      at < E(s) && !InFlight(r, at) && r.slots[at % SLOTS].entry == s.claimed[at]
  {
    hide WindowAt, ConsumerInv;
    var r, at := Do(s, t, Publish), s.producers[t].at;
    assert ProducerInv(s, s.producers[t]);
    assert !InFlight(r, at);
    assert WindowAt(r, at);
    Published(r, at);
  }

  lemma Published(s: State, p: nat)
    requires |s.slots| == SLOTS && WindowAt(s, p) && p < E(s) && !InFlight(s, p)
    ensures s.slots[p % SLOTS].entry == s.claimed[p]
  {}

  // In every reachable state: what a take() and a push() that nobody interferes with do.
  lemma UndisturbedCalls(states: seq<State>, events: seq<Event>, t: nat, e: Entry)
    requires Run(states, events) && Init(states[0]) && |states| == |events| + 1
    ensures
      var s, d := states[|events|], |states[|events|].taken|;
      && |s.slots| == SLOTS
      && (s.consumer.Waiting? ==>
            var r := TakeAlone(s, t);
            if d < |s.claimed| && !InFlight(s, d) then r.taken == s.taken + [s.claimed[d]] else r == s)
      && (t in s.producers && s.producers[t].Away? ==>
            var r := PushAlone(s, t, e);
            if |s.claimed| < d + SLOTS then r.claimed == s.claimed + [e] && !InFlight(r, |s.claimed|)
            else r == s.(dropped := (s.dropped + 1) % U32))
  {
    hide TakeAlone, PushAlone, InFlight;
    RunKeepsInv(states, events, |events|);
    var s := states[|events|];
    if s.consumer.Waiting? { TakeAloneTakes(s, t); }
    if t in s.producers && s.producers[t].Away? { PushAlonePushes(s, t, e); }
  }
}
