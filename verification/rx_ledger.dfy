// "Written, shown or counted": the byte ledger of the receive path over every run.
module RxLedger {
  import opened Bytes
  import opened RxPath
  import opened RxRefs
  import DL = DisplayLane

  function Unlogged(d: Desc): nat { if d.unlogged then d.len else 0 }

  function UnloggedIn(ring: seq<Desc>): nat {
    if ring == [] then 0 else Unlogged(ring[0]) + UnloggedIn(ring[1..])
  }

  // Bytes the read thread has taken from the backend and not yet added to a counter.
  function InFlight(r: Reader): nat {
    if r.NoCall? then 0
    else |r.i.rest| + (if r.Publishing? then r.d.len else 0) + (if r.Counting? then r.n else 0)
  }

  // Of those, bytes already on a ring.
  function Uncounted(r: Reader): nat {
    if r.Counting? then r.n else if r.Publishing? && r.rawDone then r.d.len else 0
  }

  function WithWriter(w: Writer): nat {
    if w.Writing? && w.offset <= w.d.len then w.d.len - w.offset else 0
  }

  function Slot(o: Option<Desc>): nat { if o.Some? then Unlogged(o.value) else 0 }

  function InHand(d: Dispatcher): nat { if d.Holding? || d.Formatting? then Unlogged(d.d) else 0 }

  function Backlog(r: Reader): nat {
    if r.Cutting? || r.Publishing? || r.Counting? then r.i.backlog else 0
  }

  predicate IngressBalance(s: State) {
    && s.ledger.offered == s.counters.rxBytes + s.ledger.chargedIngress + InFlight(s.reader)
    && s.counters.rxBytes + Uncounted(s.reader) == s.ledger.fileAccepted + s.ledger.unloggedAccepted
    && s.ledger.skipped == s.counters.exhausted + Backlog(s.reader)
    && (s.reader.Arming? || s.reader.Submitting? || s.reader.Refused? || s.reader.Returning? ==> s.reader.i.rest == [])
  }

  predicate LossBalance(s: State) {
    s.counters.rejected == s.ledger.chargedIngress + s.ledger.chargedWriter + s.ledger.chargedDisplay
  }

  predicate FileBalance(s: State) {
    s.ledger.fileAccepted ==
      s.ledger.writtenTotal + FileBytes(s.pool.raw) + WithWriter(s.writer) + s.ledger.chargedWriter
  }

  predicate DisplayBalance(s: State) {
    s.ledger.unloggedAccepted ==
      UnloggedIn(s.pool.display) + Slot(s.pool.deferred) + InHand(s.dispatcher)
      + DL.UnloggedBytes(s.show.lane.ready) + ActiveUnlogged(s.show.lane)
      + s.ledger.takenUnlogged + s.ledger.dropped + s.ledger.formattedToNothing + s.ledger.chargedDisplay
  }

  predicate Balanced(s: State) {
    IngressBalance(s) && LossBalance(s) && FileBalance(s) && DisplayBalance(s)
  }

  lemma {:induction false} BytesPush(ring: seq<Desc>, d: Desc)
    ensures FileBytes(ring + [d]) == FileBytes(ring) + d.len
    ensures UnloggedIn(ring + [d]) == UnloggedIn(ring) + Unlogged(d)
  {
    if ring == [] {
      assert ring + [d] == [d] && [d][1..] == [];
    } else {
      assert (ring + [d])[1..] == ring[1..] + [d];
      BytesPush(ring[1..], d);
    }
  }

  // What a drain takes off the lane it has finished or thrown away.
  lemma DrainAccounts(l: DL.Lane, capacity: nat, gen: nat)
    requires DL.WellFormed(l)
    ensures
      var m := DL.Drain(l, capacity, gen).lane;
      DL.UnloggedBytes(l.ready) + ActiveUnlogged(l) ==
        DL.UnloggedBytes(m.ready) + ActiveUnlogged(m) + Finishes(l, capacity, gen) + Discards(l, capacity, gen)
  {
    var d := DL.DropStaleActive(l, gen);
    if capacity > 0 && d.consumer.None? { ActivateAccounts(d, gen); }
  }

  // Making the next batch active takes its bytes, and those of the stale ones before it, off
  // the ring.
  lemma ActivateAccounts(l: DL.Lane, gen: nat)
    requires l.consumer.None?
    ensures
      var m, k := DL.Activate(l, gen), DL.Stale(l.ready, gen);
      DL.UnloggedBytes(l.ready) == DL.UnloggedBytes(l.ready[..k]) + DL.UnloggedBytes(m.ready) + ActiveUnlogged(m)
  {
    var k := DL.Stale(l.ready, gen);
    if k < |l.ready| {
      assert l.ready == l.ready[..k] + l.ready[k..] && l.ready[k..][1..] == l.ready[k + 1..];
      DL.UnloggedConcat(l.ready[..k], l.ready[k..]);
    } else {
      assert l.ready[..k] == l.ready;
    }
  }

  lemma CutKeepsBalance(s: State, step: Step)
    requires Balanced(s) && CanCut(s, step)
    ensures Balanced(DoCut(s, step))
  {
    hide FileBytes, UnloggedIn, DL.UnloggedBytes;
  }

  lemma PublishKeepsBalance(s: State, step: Step)
    requires Balanced(s) && RingsDistinct(s) && CanPublish(s, step)
    ensures Balanced(DoPublish(s, step))
  {
    if step.PushRaw? { BytesPush(s.pool.raw, s.reader.d); }
    if step.PushDisplay? { BytesPush(s.pool.display, s.reader.d); }
  }

  lemma PopKeepsBalance(s: State, step: Step)
    requires Balanced(s) && OneInHand(s) && CanPop(s, step)
    ensures Balanced(DoPop(s, step))
  {}

  lemma BatchPush(ready: seq<DL.Batch>, b: DL.Batch)
    ensures DL.UnloggedBytes(ready + [b]) == DL.UnloggedBytes(ready) + (if b.unlogged then b.source else 0)
  {
    assert [b][1..] == [];
    DL.UnloggedConcat(ready, [b]);
  }

  lemma DeliverKeepsRest(s: State, text: seq<byte>)
    requires IngressBalance(s) && LossBalance(s) && FileBalance(s) && CanFormat(s, Format)
    ensures
      var t := Deliver(s, text);
      IngressBalance(t) && LossBalance(t) && FileBalance(t)
  {
    hide FileBytes, UnloggedIn, DL.UnloggedBytes;
  }

  lemma DeliverKeepsBalance(s: State, text: seq<byte>)
    requires Balanced(s) && OneInHand(s) && CanFormat(s, Format)
    ensures Balanced(Deliver(s, text))
  {
    hide FileBytes, UnloggedIn, DL.UnloggedBytes, IngressBalance, LossBalance, FileBalance;
    DeliverKeepsRest(s, text);
    var before, after := s.show.lane.ready, Deliver(s, text).show.lane.ready;
    if |after| > |before| {
      assert after == before + [after[|before|]];
      BatchPush(before, after[|before|]);
    }
  }

  lemma FormatKeepsBalance(s: State, step: Step)
    requires Balanced(s) && OneInHand(s) && CanFormat(s, step)
    ensures Balanced(DoFormat(s, step))
  {
    if step.Format? {
      var payload := Payload(s.pool.mem, s.dispatcher.d);
      var made := FormatBlock(s.show.carry, payload, s.show.hex);
      var show := s.show.(carry := made.0, formatted := s.show.formatted + [Formatted(payload, s.show.hex)]);
      DeliverKeepsBalance(s.(show := show), made.1);
    }
  }

  lemma WriteKeepsBalance(s: State, step: Step)
    requires Balanced(s) && BlockShape(s) && CanWrite(s, step)
    ensures Balanced(DoWrite(s, step))
  {
    hide UnloggedIn, DL.UnloggedBytes, RingText;
    if step.PopRaw? {
      assert FileBytes(s.pool.raw) == s.pool.raw[0].len + FileBytes(s.pool.raw[1..]);
    } else {
      hide FileBytes;
    }
  }

  lemma ReturnKeepsBalance(s: State, step: Step)
    requires Balanced(s) && CanReturn(s, step)
    ensures Balanced(DoReturn(s, step))
  {
    hide FileBytes, UnloggedIn, DL.UnloggedBytes;
  }

  lemma KickKeepsBalance(s: State, step: Step)
    requires Balanced(s) && CanKick(s, step)
    ensures Balanced(DoKick(s, step))
  {
    hide FileBytes, UnloggedIn, DL.UnloggedBytes;
  }

  lemma BoundKeepsBalance(s: State, step: Step)
    requires Balanced(s) && CanBound(s, step)
    ensures Balanced(DoBound(s, step))
  {}

  lemma AdmitKeepsBalance(s: State, step: Step)
    requires Balanced(s) && CanAdmit(s, step)
    ensures Balanced(DoAdmit(s, step))
  {
    hide FileBytes, UnloggedIn, DL.UnloggedBytes;
  }

  lemma UiKeepsBalance(s: State, step: Step)
    requires Balanced(s) && CanUi(s, step)
    ensures Balanced(DoUi(s, step))
  {
    hide FileBytes, UnloggedIn, DL.UnloggedBytes, DL.Drain, DL.WellFormed, ActiveUnlogged, Finishes, Discards;
    if step.DrainUi? { DrainAccounts(s.show.lane, step.capacity, s.show.gen); }
  }

  lemma StepKeepsBalance(s: State, step: Step)
    requires Balanced(s) && RefInv(s) && Can(s, step)
    ensures Balanced(Do(s, step))
  {
    hide Balanced, BlockShape, RefsMatch, RingsDistinct, OneInHand;
    hide CanCut, CanPublish, CanReturn, CanPop, CanFormat, CanKick, CanBound, CanWrite, CanAdmit, CanUi;
    hide DoCut, DoPublish, DoReturn, DoPop, DoFormat, DoKick, DoBound, DoWrite, DoAdmit, DoUi;
    if CanCut(s, step) { CutKeepsBalance(s, step); }
    else if CanPublish(s, step) { PublishKeepsBalance(s, step); }
    else if CanReturn(s, step) { ReturnKeepsBalance(s, step); }
    else if CanPop(s, step) { PopKeepsBalance(s, step); }
    else if CanFormat(s, step) { FormatKeepsBalance(s, step); }
    else if CanKick(s, step) { KickKeepsBalance(s, step); }
    else if CanBound(s, step) { BoundKeepsBalance(s, step); }
    else if CanWrite(s, step) { WriteKeepsBalance(s, step); }
    else if CanAdmit(s, step) { AdmitKeepsBalance(s, step); }
    else { UiKeepsBalance(s, step); }
  }

  lemma InitBalance(s: State)
    requires Init(s)
    ensures Balanced(s)
  {}

  lemma {:induction false} RunKeepsBalance(states: seq<State>, steps: seq<Step>, k: nat)
    requires Run(states, steps) && Init(states[0]) && k < |states|
    ensures Balanced(states[k])
  {
    hide *;
    RunShape(states, steps);
    if k == 0 {
      InitBalance(states[0]);
    } else {
      RunStep(states, steps, k - 1);
      RunKeepsBalance(states, steps, k - 1);
      RunKeepsRefs(states, steps, k - 1);
      StepKeepsBalance(states[k - 1], steps[k - 1]);
    }
  }

  // Bytes still on their way: with the read thread, on the raw ring, with the writer, or,
  // when they have no file lane, anywhere from the display ring to the batch being drained.
  function OnTheWay(s: State): int {
    InFlight(s.reader) - Uncounted(s.reader)
    + FileBytes(s.pool.raw) + WithWriter(s.writer)
    + UnloggedIn(s.pool.display) + Slot(s.pool.deferred) + InHand(s.dispatcher)
    + DL.UnloggedBytes(s.show.lane.ready) + ActiveUnlogged(s.show.lane)
  }

  // Every byte the backend ever delivered is in a log file, was drained, normalised to nothing,
  // is counted in save_rejected_bytes, is still on its way, or was in an unlogged batch that a
  // drain threw away; no byte is in two of these. Once the lanes are empty none is on its way.
  lemma EveryByteAccounted(states: seq<State>, steps: seq<Step>, k: nat)
    requires Run(states, steps) && Init(states[0]) && k < |states|
    ensures
      var s := states[k];
      && s.ledger.offered ==
           s.ledger.writtenTotal + s.ledger.takenUnlogged + s.ledger.formattedToNothing
           + s.counters.rejected + OnTheWay(s) + s.ledger.dropped
      && 0 <= OnTheWay(s)
      && (s.reader.NoCall? && s.pool.raw == [] && s.writer.Parked? && s.pool.display == []
          && s.pool.deferred.None? && s.dispatcher.Resting? && s.show.lane.ready == [] && s.show.lane.consumer.None?
          ==> OnTheWay(s) == 0)
  {
    hide Run, Init;
    RunKeepsBalance(states, steps, k);
  }
}
