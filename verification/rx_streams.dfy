// What the two consumers of the receive path see: what the log file holds of the leased byte
// stream, and the drained text as the normalised display stream in order.
module RxStreams {
  import opened Bytes
  import opened Normaliser
  import opened RxPath
  import opened RxRefs
  import DL = DisplayLane

  lemma {:induction false} RingTextPush(mem: seq<seq<byte>>, ring: seq<Desc>, d: Desc)
    ensures RingText(mem, ring + [d]) == RingText(mem, ring) + Payload(mem, d)
  {
    if ring == [] {
      assert ring + [d] == [d] && [d][1..] == [];
    } else {
      assert (ring + [d])[1..] == ring[1..] + [d];
      RingTextPush(mem, ring[1..], d);
    }
  }

  // Reusing a block that is not on the ring changes nothing on it.
  lemma {:induction false} RingTextFrame(mem: seq<seq<byte>>, b: nat, block: seq<byte>, ring: seq<Desc>)
    requires b < |mem| && OnRing(ring, b) == 0
    ensures RingText(mem[b := block], ring) == RingText(mem, ring)
  {
    if ring != [] { RingTextFrame(mem, b, block, ring[1..]); }
  }

  // ---- the display buffers ---------------------------------------------------------

  function Held(d: Dispatcher): set<nat> { if d.Formatting? then {d.id} else {} }

  // Every buffer has one place, and everything queued belongs to the current session.
  ghost predicate LaneInv(s: State) {
    DL.Partition(s.show.lane, Held(s.dispatcher)) && Queued(s.show.lane.ready, s.show.gen)
  }

  predicate Queued(ready: seq<DL.Batch>, gen: nat) { forall i :: 0 <= i < |ready| ==> ready[i].gen == gen }

  lemma HexSize(s: seq<byte>)
    ensures |Hex(s)| <= 3 * |s|
  {}

  // The formatter's buffer is large enough for any block, and push_ready has room.
  lemma FormatFits(s: State)
    requires LaneInv(s) && CanFormat(s, Format) && BlockShape(s)
    ensures |FormatBlock(s.show.carry, Payload(s.pool.mem, s.dispatcher.d), s.show.hex).1| <= DL.BATCH_BYTES
    ensures |s.show.lane.ready| < DL.BATCHES
  {
    var payload := Payload(s.pool.mem, s.dispatcher.d);
    HexSize(payload);
    NormClean(s.show.carry, payload);
    DL.PushReadyHasRoom(s.show.lane, Held(s.dispatcher));
  }

  // A filled buffer goes onto the ring, or an empty one back to the pool.
  ghost predicate Delivered(l: DL.Lane, m: DL.Lane, id: nat, text: seq<byte>, gen: nat) {
    if text == [] then m == l.(free := l.free + {id})
    else
      && id < |l.bufs| && m.free == l.free && m.consumer == l.consumer
      && m.bufs == l.bufs[id := Overwrite(l.bufs[id], text)]
      && exists b: DL.Batch :: m.ready == l.ready + [b] && b.buf == id && b.len == |text| && b.gen == gen
  }

  lemma DeliverMoves(s: State, text: seq<byte>)
    requires CanFormat(s, Format) && |text| <= DL.BATCH_BYTES && |s.show.lane.ready| < DL.BATCHES
    ensures
      var t := Deliver(s, text);
      && Delivered(s.show.lane, t.show.lane, s.dispatcher.id, text, s.show.gen)
      && t.dispatcher == Consumed(s.dispatcher.left, s.dispatcher.d)
      && t.show == s.show.(lane := t.show.lane) && t.pool == s.pool
  {}

  // Queueing the filled buffer b.buf keeps the partition.
  lemma PushedPartition(l: DL.Lane, m: DL.Lane, b: DL.Batch, text: seq<byte>)
    requires DL.Partition(l, {b.buf}) && b.len == |text| <= DL.BATCH_BYTES && b.buf < |l.bufs|
    requires m.bufs == l.bufs[b.buf := Overwrite(l.bufs[b.buf], text)]
    requires m == l.(bufs := m.bufs, ready := l.ready + [b])
    ensures DL.Partition(m, {})
    ensures forall i :: 0 <= i < |l.ready| ==> l.ready[i].buf != b.buf
    ensures l.consumer.Some? ==> l.consumer.value.batch.buf != b.buf
  {
    hide DL.Ids;
    assert l.consumer.Some? ==> l.consumer.value.batch.buf in DL.ActiveIds(l);
    DL.FillPartition(l, {b.buf}, b.buf, m.bufs[b.buf]);
    DL.PushPartition(l.(bufs := m.bufs), {b.buf}, b);
    assert {b.buf} - {b.buf} == {};
  }

  lemma DeliverKeepsLane(l: DL.Lane, m: DL.Lane, id: nat, text: seq<byte>, gen: nat)
    requires DL.Partition(l, {id}) && |text| <= DL.BATCH_BYTES && Delivered(l, m, id, text, gen)
    requires Queued(l.ready, gen)
    ensures DL.Partition(m, {}) && Queued(m.ready, gen)
  {
    assert {id} - {id} == {};
    if text == [] {
      DL.PlacedReturn(l.free, {id}, DL.Ids(l.ready), DL.ActiveIds(l), id);
    } else {
      var b :| m.ready == l.ready + [b] && b.buf == id && b.len == |text| && b.gen == gen;
      PushedPartition(l, m, b, text);
    }
  }

  function Made(s: State): (Carry, seq<byte>)
    requires CanFormat(s, Format)
  {
    FormatBlock(s.show.carry, Payload(s.pool.mem, s.dispatcher.d), s.show.hex)
  }

  // The state in which the formatted text is delivered.
  function Noted(s: State): State
    requires CanFormat(s, Format)
  {
    var payload := Payload(s.pool.mem, s.dispatcher.d);
    s.(show := s.show.(carry := Made(s).0, formatted := s.show.formatted + [Formatted(payload, s.show.hex)]))
  }

  lemma FormatDelivers(s: State)
    requires CanFormat(s, Format)
    ensures CanFormat(Noted(s), Format) && DoFormat(s, Format) == Deliver(Noted(s), Made(s).1)
  {}

  lemma FormatKeepsLane(s: State, step: Step)
    requires LaneInv(s) && CanFormat(s, step) && BlockShape(s)
    ensures LaneInv(DoFormat(s, step))
  {
    if step.Format? {
      FormatFits(s);
      FormatDelivers(s);
      DeliverMoves(Noted(s), Made(s).1);
      DeliverKeepsLane(s.show.lane, DoFormat(s, step).show.lane, s.dispatcher.id, Made(s).1, s.show.gen);
    } else {
      AcquireKeepsLane(s.show.lane, step.id);
    }
  }

  lemma AcquireKeepsLane(l: DL.Lane, id: nat)
    requires DL.Partition(l, {}) && id in l.free
    ensures DL.Partition(l.(free := l.free - {id}), {id})
  {
    DL.PlacedTake(l.free, {}, DL.Ids(l.ready), DL.ActiveIds(l), id);
    assert {} + {id} == {id};
  }

  lemma DrainReady(l: DL.Lane, capacity: nat, gen: nat)
    requires DL.WellFormed(l)
    ensures DL.Drain(l, capacity, gen).lane.ready ==
            if capacity == 0 then l.ready else DL.Activate(DL.DropStaleActive(l, gen), gen).ready
  {}

  // A drain takes batches off the front of the ready ring.
  lemma DrainKeepsQueue(l: DL.Lane, capacity: nat, gen: nat)
    requires DL.WellFormed(l) && Queued(l.ready, gen)
    ensures Queued(DL.Drain(l, capacity, gen).lane.ready, gen)
  {
    DrainReady(l, capacity, gen);
    var d := DL.DropStaleActive(l, gen);
    assert d.ready == l.ready;
    var m, k := DL.Activate(d, gen).ready, DL.Stale(d.ready, gen);
    assert m == l.ready || m == [] || m == l.ready[k + 1..];
  }

  lemma DrainKeepsLane(l: DL.Lane, capacity: nat, gen: nat, held: set<nat>)
    requires DL.Partition(l, held) && Queued(l.ready, gen)
    ensures
      var m := DL.Drain(l, capacity, gen).lane;
      DL.Partition(m, held) && Queued(m.ready, gen)
  {
    DL.DrainPartition(l, capacity, gen, held);
    DrainKeepsQueue(l, capacity, gen);
  }

  lemma UiKeepsLane(s: State, step: Step)
    requires LaneInv(s) && CanUi(s, step)
    ensures LaneInv(DoUi(s, step))
  {
    if step.DrainUi? {
      DrainKeepsLane(s.show.lane, step.capacity, s.show.gen, Held(s.dispatcher));
      DrainOnlyLane(s, step.capacity);
    } else {
      NotDrained(s, step);
      SameLaneKeeps(s, DoUi(s, step));
    }
  }

  lemma DrainOnlyLane(s: State, capacity: nat)
    requires CanUi(s, DrainUi(capacity))
    ensures
      var t, d := DoUi(s, DrainUi(capacity)), DL.Drain(s.show.lane, capacity, s.show.gen);
      && t.show == s.show.(lane := d.lane, delivered := s.show.delivered + d.output)
      && t.pool == s.pool && t.dispatcher == s.dispatcher
  {}

  lemma NotDrained(s: State, step: Step)
    requires CanUi(s, step) && !step.DrainUi?
    ensures
      var t := DoUi(s, step);
      && t.show == s.show.(hex := t.show.hex, paused := t.show.paused)
      && t.pool == s.pool && t.dispatcher == s.dispatcher
  {}

  lemma BoundKeepsLane(s: State, step: Step)
    requires LaneInv(s) && CanBound(s, step)
    ensures LaneInv(DoBound(s, step))
  {
    DL.ResetPartition(s.show.lane, Held(s.dispatcher));
  }

  predicate SameLane(s: State, t: State) {
    && t.show.lane == s.show.lane && t.show.gen == s.show.gen
    && Held(t.dispatcher) == Held(s.dispatcher)
  }

  lemma CutLeavesLane(s: State, step: Step)
    requires CanCut(s, step)
    ensures SameLane(s, DoCut(s, step))
  {}

  lemma ReaderLeavesLane(s: State, step: Step)
    ensures CanPublish(s, step) ==> SameLane(s, DoPublish(s, step))
    ensures CanReturn(s, step) ==> SameLane(s, DoReturn(s, step))
  {}

  lemma DispatcherLeavesLane(s: State, step: Step)
    ensures CanPop(s, step) ==> SameLane(s, DoPop(s, step))
    ensures CanKick(s, step) ==> SameLane(s, DoKick(s, step))
  {}

  lemma WriterLeavesLane(s: State, step: Step)
    ensures CanWrite(s, step) ==> SameLane(s, DoWrite(s, step))
    ensures CanAdmit(s, step) ==> SameLane(s, DoAdmit(s, step))
  {}

  lemma SameLaneKeeps(s: State, t: State)
    requires LaneInv(s) && SameLane(s, t)
    ensures LaneInv(t)
  {}

  lemma StepKeepsLane(s: State, step: Step)
    requires LaneInv(s) && Can(s, step) && BlockShape(s)
    ensures LaneInv(Do(s, step))
  {
    hide LaneInv, SameLane, BlockShape;
    hide CanCut, CanPublish, CanReturn, CanPop, CanFormat, CanKick, CanBound, CanWrite, CanAdmit, CanUi;
    hide DoCut, DoPublish, DoReturn, DoPop, DoFormat, DoKick, DoBound, DoWrite, DoAdmit, DoUi;
    if CanCut(s, step) { CutLeavesLane(s, step); }
    ReaderLeavesLane(s, step);
    DispatcherLeavesLane(s, step);
    WriterLeavesLane(s, step);
    if CanCut(s, step) || CanPublish(s, step) || CanReturn(s, step) || CanPop(s, step) { SameLaneKeeps(s, Do(s, step)); }
    else if CanFormat(s, step) { FormatKeepsLane(s, step); }
    else if CanKick(s, step) { SameLaneKeeps(s, DoKick(s, step)); }
    else if CanBound(s, step) { BoundKeepsLane(s, step); }
    else if CanWrite(s, step) || CanAdmit(s, step) { SameLaneKeeps(s, Do(s, step)); }
    else { UiKeepsLane(s, step); }
  }

  // ---- the log file -------------------------------------------------------------------

  // What the writer still has to write of the segment in its hands.
  function WriterRest(s: State): seq<byte> {
    if s.writer.Writing? && s.writer.offset <= |Payload(s.pool.mem, s.writer.d)|
    then Payload(s.pool.mem, s.writer.d)[s.writer.offset..] else []
  }

  ghost predicate FileInv(s: State) {
    && (s.log.accepting ==> FileStays(s))
    && (s.pool.raw != [] || !s.writer.Parked? || HoldsLease(s.reader) ==> s.log.open || s.admit.underLease)
    && (s.log.tailCharged ==> s.log.stopping || s.admit.underLease)
    && (!s.log.tailCharged ==>
          s.log.leased == s.log.written + WriterRest(s) + RingText(s.pool.mem, s.pool.raw))
  }

  lemma CutKeepsFile(s: State, step: Step)
    requires FileInv(s) && RefInv(s) && CanCut(s, step)
    ensures FileInv(DoCut(s, step))
  {
    if step.Claim? {
      assert s.pool.refs[step.b] == Holders(s, step.b);
      RingTextFrame(s.pool.mem, step.b, DoCut(s, step).pool.mem[step.b], s.pool.raw);
    }
  }

  lemma PushRawKeepsFile(s: State)
    requires FileInv(s) && RefInv(s) && CanPublish(s, PushRaw)
    ensures FileInv(DoPublish(s, PushRaw))
  {
    RingTextPush(s.pool.mem, s.pool.raw, s.reader.d);
    var front, ring, p := s.log.written + WriterRest(s), RingText(s.pool.mem, s.pool.raw), Payload(s.pool.mem, s.reader.d);
    assert (front + ring) + p == front + (ring + p);
  }

  lemma PublishKeepsFile(s: State, step: Step)
    requires FileInv(s) && RefInv(s) && CanPublish(s, step)
    ensures FileInv(DoPublish(s, step))
  {
    if step.PushRaw? { PushRawKeepsFile(s); }
  }

  lemma WriteSomeKeepsFile(s: State, k: nat)
    requires FileInv(s) && BlockShape(s) && CanWrite(s, WriteSome(k))
    ensures FileInv(DoWrite(s, WriteSome(k)))
  {
    hide RingText, Payload;
    MovePart(s.log.written, Payload(s.pool.mem, s.writer.d), s.writer.offset, k, RingText(s.pool.mem, s.pool.raw));
  }

  // k bytes of a payload go from the writer's rest to the file.
  lemma MovePart(written: seq<byte>, payload: seq<byte>, offset: nat, k: nat, ring: seq<byte>)
    requires offset + k <= |payload|
    ensures written + payload[offset..] + ring == written + payload[offset..offset + k] + payload[offset + k..] + ring
  {
    assert payload[offset..] == payload[offset..offset + k] + payload[offset + k..];
  }

  lemma RingKeepsFile(s: State, step: Step)
    requires FileInv(s) && BlockShape(s) && CanWrite(s, step) && (step.PopRaw? || step.ReleaseRaw? || step.ChargeTail?)
    ensures FileInv(DoWrite(s, step))
  {}

  lemma JobKeepsFile(s: State, step: Step)
    requires FileInv(s) && CanWrite(s, step) && (step.OpenLog? || step.StartClose? || step.CloseFile?)
    ensures FileInv(DoWrite(s, step))
  {}

  lemma WriteKeepsFile(s: State, step: Step)
    requires FileInv(s) && RefInv(s) && CanWrite(s, step)
    ensures FileInv(DoWrite(s, step))
  {
    hide FileInv, RefsMatch, RingsDistinct, OneInHand, DoWrite;
    match step
    case WriteSome(k) => WriteSomeKeepsFile(s, k);
    case PopRaw => RingKeepsFile(s, step);
    case ReleaseRaw => RingKeepsFile(s, step);
    case ChargeTail => RingKeepsFile(s, step);
    case _ => JobKeepsFile(s, step);
  }

  predicate SameFile(s: State, t: State) {
    && t.pool.mem == s.pool.mem && t.pool.raw == s.pool.raw && t.writer == s.writer
    && (HoldsLease(t.reader) ==> HoldsLease(s.reader))
    && t.log == s.log.(accepting := t.log.accepting, stopping := t.log.stopping)
    && (t.log.accepting ==> s.log.accepting) && (s.log.stopping ==> t.log.stopping)
    && t.admit.closing == s.admit.closing && t.admit.underLease == s.admit.underLease
  }

  lemma DispatcherLeavesFile(s: State, step: Step)
    ensures CanPop(s, step) ==> SameFile(s, DoPop(s, step))
    ensures CanKick(s, step) ==> SameFile(s, DoKick(s, step))
  {}

  lemma BoundLeavesFile(s: State, step: Step)
    requires CanBound(s, step)
    ensures SameFile(s, DoBound(s, step))
  {
    hide DL.UnloggedBytes, DL.Reset;
  }

  lemma FormatLeavesFile(s: State, step: Step)
    requires CanFormat(s, step)
    ensures SameFile(s, DoFormat(s, step))
  {}

  lemma OthersLeaveFile(s: State, step: Step)
    ensures CanReturn(s, step) ==> SameFile(s, DoReturn(s, step))
    ensures CanAdmit(s, step) ==> SameFile(s, DoAdmit(s, step))
    ensures CanUi(s, step) ==> SameFile(s, DoUi(s, step))
  {}

  lemma SameFileKeeps(s: State, t: State)
    requires FileInv(s) && SameFile(s, t)
    ensures FileInv(t)
  {}

  lemma StepKeepsFile(s: State, step: Step)
    requires FileInv(s) && RefInv(s) && Can(s, step)
    ensures FileInv(Do(s, step))
  {
    hide FileInv, RefInv, SameFile;
    hide CanCut, CanPublish, CanReturn, CanPop, CanFormat, CanKick, CanBound, CanWrite, CanAdmit, CanUi;
    hide DoCut, DoPublish, DoReturn, DoPop, DoFormat, DoKick, DoBound, DoWrite, DoAdmit, DoUi;
    DispatcherLeavesFile(s, step);
    if CanFormat(s, step) { FormatLeavesFile(s, step); }
    if CanBound(s, step) { BoundLeavesFile(s, step); }
    OthersLeaveFile(s, step);
    if CanCut(s, step) { CutKeepsFile(s, step); }
    else if CanPublish(s, step) { PublishKeepsFile(s, step); }
    else if CanReturn(s, step) || CanPop(s, step) || CanFormat(s, step) || CanKick(s, step) || CanBound(s, step) {
      SameFileKeeps(s, Do(s, step));
    }
    else if CanWrite(s, step) { WriteKeepsFile(s, step); }
    else { SameFileKeeps(s, Do(s, step)); }
  }

  // ---- the display stream ----------------------------------------------------------------

  function Payloads(fs: seq<Formatted>): seq<byte> {
    if fs == [] then [] else Payloads(fs[..|fs| - 1]) + fs[|fs| - 1].payload
  }

  // Formatting block after block from a fresh carry, each in the view it was formatted in.
  function Fold(fs: seq<Formatted>): (Carry, seq<byte>) {
    if fs == [] then (FRESH, [])
    else
      var before := Fold(fs[..|fs| - 1]);
      var f := fs[|fs| - 1];
      var made := FormatBlock(before.0, f.payload, f.hex);
      (made.0, before.1 + made.1)
  }

  lemma {:induction false} TextFoldIsNorm(fs: seq<Formatted>)
    requires forall i :: 0 <= i < |fs| ==> !fs[i].hex
    ensures Fold(fs) == Norm(FRESH, Payloads(fs))
  {
    if fs != [] {
      var f := fs[..|fs| - 1];
      TextFoldIsNorm(f);
      NormConcat(FRESH, Payloads(f), fs[|fs| - 1].payload);
    }
  }

  // Published but not yet formatted: in hand, in the deferred slot, on the ring.
  predicate InFormatter(d: Dispatcher) { d.Holding? || d.Formatting? }

  function Waiting(s: State): seq<byte> {
    (if InFormatter(s.dispatcher) then Payload(s.pool.mem, s.dispatcher.d) else [])
    + (if s.pool.deferred.Some? then Payload(s.pool.mem, s.pool.deferred.value) else [])
    + RingText(s.pool.mem, s.pool.display)
  }

  // Everything published is formatted or waiting, and everything formatted is shown or unread.
  ghost predicate Faithful(show: Show, waiting: seq<byte>) {
    && DL.WellFormed(show.lane) && DL.AllCurrent(show.lane, show.gen)
    && Fold(show.formatted) == (show.carry, show.delivered + DL.Unread(show.lane))
    && show.published == Payloads(show.formatted) + waiting
  }

  ghost predicate ShowInv(s: State) { s.show.session ==> Faithful(s.show, Waiting(s)) }

  lemma CutKeepsShow(s: State, step: Step)
    requires ShowInv(s) && RefInv(s) && CanCut(s, step)
    ensures ShowInv(DoCut(s, step))
  {
    if step.Claim? {
      assert s.pool.refs[step.b] == Holders(s, step.b);
      RingTextFrame(s.pool.mem, step.b, DoCut(s, step).pool.mem[step.b], s.pool.display);
      assert Waiting(DoCut(s, step)) == Waiting(s);
    }
  }

  lemma PublishFaithful(show: Show, waiting: seq<byte>, p: seq<byte>)
    requires Faithful(show, waiting)
    ensures Faithful(show.(published := show.published + p), waiting + p)
  {}

  lemma PushWaiting(s: State, t: State, d: Desc)
    requires t.pool == s.pool.(display := s.pool.display + [d]) && t.dispatcher == s.dispatcher
    ensures Waiting(t) == Waiting(s) + Payload(s.pool.mem, d)
  {
    RingTextPush(s.pool.mem, s.pool.display, d);
  }

  lemma PublishKeepsShow(s: State, step: Step)
    requires ShowInv(s) && CanPublish(s, step)
    ensures ShowInv(DoPublish(s, step))
  {
    var t := DoPublish(s, step);
    if step.PushDisplay? {
      PushWaiting(s, t, s.reader.d);
      if s.show.session { PublishFaithful(s.show, Waiting(s), Payload(s.pool.mem, s.reader.d)); }
    } else {
      assert t.pool == s.pool.(refs := t.pool.refs, raw := t.pool.raw) && t.show == s.show;
      SameShowKeeps(s, t);
    }
  }

  lemma PopKeepsShow(s: State, step: Step)
    requires ShowInv(s) && OneInHand(s) && CanPop(s, step)
    ensures ShowInv(DoPop(s, step))
  {
    assert Waiting(DoPop(s, step)) == Waiting(s);
  }

  lemma PushUnread(l: DL.Lane, m: DL.Lane, b: DL.Batch, text: seq<byte>)
    requires DL.WellFormed(l) && DL.WellFormed(m) && b.buf < |l.bufs| && b.len == |text|
    requires forall i :: 0 <= i < |l.ready| ==> l.ready[i].buf != b.buf
    requires l.consumer.Some? ==> l.consumer.value.batch.buf != b.buf
    requires m.bufs == l.bufs[b.buf := Overwrite(l.bufs[b.buf], text)]
    requires m.ready == l.ready + [b] && m.consumer == l.consumer
    ensures DL.Unread(m) == DL.Unread(l) + text
  {
    assert DL.WellBatch(m, b) by { assert m.ready[|l.ready|] == b; }
    DL.PushText(l, m, l.ready, b);
    assert DL.BatchText(m, b) == text;
    assert DL.ActiveText(m) == DL.ActiveText(l);
    var active, ready := DL.ActiveText(l), DL.ReadyText(l, l.ready);
    assert active + (ready + text) == active + ready + text;
  }

  // One buffer filled and queued, or handed back when there is no text.
  lemma DeliverUnread(l: DL.Lane, m: DL.Lane, id: nat, text: seq<byte>, gen: nat)
    requires DL.Partition(l, {id}) && |text| <= DL.BATCH_BYTES && Delivered(l, m, id, text, gen)
    requires DL.AllCurrent(l, gen)
    ensures DL.WellFormed(m) && DL.AllCurrent(m, gen) && DL.Unread(m) == DL.Unread(l) + text
  {
    if text == [] {
      DL.SameBuffersSameText(l, m, l.ready);
      assert DL.Unread(l) + [] == DL.Unread(l);
    } else {
      var b :| m.ready == l.ready + [b] && b.buf == id && b.len == |text| && b.gen == gen;
      PushedPartition(l, m, b, text);
      PushUnread(l, m, b, text);
    }
  }

  // A block formatted: its payload is no longer waiting, its text is at the end of the lane.
  lemma FormatFaithful(a: Show, b: Show, text: seq<byte>, f: Formatted, waiting: seq<byte>)
    requires Faithful(a, f.payload + waiting)
    requires (b.carry, text) == FormatBlock(a.carry, f.payload, f.hex) && b.formatted == a.formatted + [f]
    requires b.gen == a.gen && b.delivered == a.delivered && b.published == a.published
    requires DL.WellFormed(b.lane) && DL.AllCurrent(b.lane, b.gen)
    requires DL.Unread(b.lane) == DL.Unread(a.lane) + text
    ensures Faithful(b, waiting)
  {
    assert b.formatted[..|a.formatted|] == a.formatted;
    assert Payloads(a.formatted) + (f.payload + waiting) == (Payloads(a.formatted) + f.payload) + waiting;
    var unread := DL.Unread(a.lane);
    assert a.delivered + (unread + text) == a.delivered + unread + text;
  }

  lemma FormatEffect(s: State)
    requires LaneInv(s) && BlockShape(s) && CanFormat(s, Format)
    ensures
      var t := DoFormat(s, Format);
      && |Made(s).1| <= DL.BATCH_BYTES
      && Delivered(s.show.lane, t.show.lane, s.dispatcher.id, Made(s).1, s.show.gen)
      && t.pool == s.pool && t.dispatcher.Consumed?
      && t.show == Noted(s).show.(lane := t.show.lane)
  {
    FormatFits(s);
    FormatDelivers(s);
    DeliverMoves(Noted(s), Made(s).1);
  }

  lemma FormatWaiting(s: State, t: State)
    requires s.dispatcher.Formatting? && s.pool.deferred.None? && t.pool == s.pool && t.dispatcher.Consumed?
    ensures Waiting(s) == Payload(s.pool.mem, s.dispatcher.d) + Waiting(t)
  {}

  lemma FormatShows(s: State)
    requires ShowInv(s) && LaneInv(s) && BlockShape(s) && OneInHand(s) && CanFormat(s, Format)
    ensures ShowInv(DoFormat(s, Format))
  {
    var t, text, payload := DoFormat(s, Format), Made(s).1, Payload(s.pool.mem, s.dispatcher.d);
    FormatEffect(s);
    if s.show.session {
      DeliverUnread(s.show.lane, t.show.lane, s.dispatcher.id, text, s.show.gen);
      FormatWaiting(s, t);
      FormatFaithful(s.show, t.show, text, Formatted(payload, s.show.hex), Waiting(t));
    }
  }

  lemma AcquireShows(s: State, step: Step)
    requires ShowInv(s) && CanFormat(s, step) && step.Acquire?
    ensures ShowInv(DoFormat(s, step))
  {
    if s.show.session { DL.SameBuffersSameText(s.show.lane, DoFormat(s, step).show.lane, s.show.lane.ready); }
  }

  lemma FormatKeepsShow(s: State, step: Step)
    requires ShowInv(s) && LaneInv(s) && RefInv(s) && CanFormat(s, step)
    ensures ShowInv(DoFormat(s, step))
  {
    if step.Format? { FormatShows(s); } else { AcquireShows(s, step); }
  }

  // Unread text drained is text delivered.
  lemma DrainFaithful(a: Show, capacity: nat, waiting: seq<byte>)
    requires Faithful(a, waiting)
    ensures
      var r := DL.Drain(a.lane, capacity, a.gen);
      Faithful(a.(lane := r.lane, delivered := a.delivered + r.output), waiting)
  {
    hide DL.Drain, DL.Unread, Fold, Payloads;
    DL.DrainStream(a.lane, capacity, a.gen);
    var r := DL.Drain(a.lane, capacity, a.gen);
    assert a.delivered + (r.output + DL.Unread(r.lane)) == a.delivered + r.output + DL.Unread(r.lane);
  }

  lemma SameLaneFaithful(a: Show, b: Show, waiting: seq<byte>)
    requires Faithful(a, waiting) && b == a.(hex := b.hex, paused := b.paused)
    ensures Faithful(b, waiting)
  {}

  lemma UiKeepsShow(s: State, step: Step)
    requires ShowInv(s) && LaneInv(s) && CanUi(s, step)
    ensures ShowInv(DoUi(s, step))
  {
    hide Faithful, DoUi;
    if step.DrainUi? { DrainOnlyLane(s, step.capacity); } else { NotDrained(s, step); }
    if s.show.session {
      if step.DrainUi? { DrainFaithful(s.show, step.capacity, Waiting(s)); }
      else { SameLaneFaithful(s.show, DoUi(s, step).show, Waiting(s)); }
    }
  }

  lemma BoundKeepsShow(s: State, step: Step)
    requires ShowInv(s) && CanBound(s, step)
    ensures ShowInv(DoBound(s, step))
  {
    if step.CommitOpen? && CleanStart(s) {
      var t := DoBound(s, step);
      assert DL.Unread(t.show.lane) == [] && Waiting(t) == [];
    }
  }

  predicate SameShow(s: State, t: State) {
    && t.show == s.show && t.pool.mem == s.pool.mem
    && t.pool.deferred == s.pool.deferred && t.pool.display == s.pool.display
    && (t.dispatcher == s.dispatcher || (!InFormatter(s.dispatcher) && !InFormatter(t.dispatcher)))
  }

  lemma OthersLeaveShow(s: State, step: Step)
    ensures CanReturn(s, step) ==> SameShow(s, DoReturn(s, step))
    ensures CanKick(s, step) ==> SameShow(s, DoKick(s, step))
  {}

  lemma FileLeavesShow(s: State, step: Step)
    ensures CanWrite(s, step) ==> SameShow(s, DoWrite(s, step))
    ensures CanAdmit(s, step) ==> SameShow(s, DoAdmit(s, step))
  {}

  lemma SameShowKeeps(s: State, t: State)
    requires ShowInv(s) && SameShow(s, t)
    ensures ShowInv(t)
  {}

  lemma StepKeepsShow(s: State, step: Step)
    requires ShowInv(s) && LaneInv(s) && RefInv(s) && Can(s, step)
    ensures ShowInv(Do(s, step))
  {
    hide ShowInv, LaneInv, SameShow, BlockShape, RefsMatch, RingsDistinct, OneInHand;
    hide CanCut, CanPublish, CanReturn, CanPop, CanFormat, CanKick, CanBound, CanWrite, CanAdmit, CanUi;
    hide DoCut, DoPublish, DoReturn, DoPop, DoFormat, DoKick, DoBound, DoWrite, DoAdmit, DoUi;
    OthersLeaveShow(s, step);
    FileLeavesShow(s, step);
    if CanCut(s, step) { CutKeepsShow(s, step); }
    else if CanPublish(s, step) { PublishKeepsShow(s, step); }
    else if CanReturn(s, step) { SameShowKeeps(s, DoReturn(s, step)); }
    else if CanPop(s, step) { PopKeepsShow(s, step); }
    else if CanFormat(s, step) { FormatKeepsShow(s, step); }
    else if CanKick(s, step) { SameShowKeeps(s, DoKick(s, step)); }
    else if CanBound(s, step) { BoundKeepsShow(s, step); }
    else if CanWrite(s, step) || CanAdmit(s, step) { SameShowKeeps(s, Do(s, step)); }
    else { UiKeepsShow(s, step); }
  }

  // ---- over all runs -----------------------------------------------------------------------

  lemma InitStreams(s: State)
    requires Init(s)
    ensures StreamInv(s)
  {
    DL.EmptyPartition();
  }

  ghost predicate StreamInv(s: State) { LaneInv(s) && FileInv(s) && ShowInv(s) }

  lemma StepKeepsStreams(s: State, step: Step)
    requires StreamInv(s) && RefInv(s) && Can(s, step)
    ensures StreamInv(Do(s, step))
  {
    StepKeepsLane(s, step);
    StepKeepsFile(s, step);
    StepKeepsShow(s, step);
  }

  lemma {:induction false} RunKeepsStreams(states: seq<State>, steps: seq<Step>, k: nat)
    requires Run(states, steps) && Init(states[0]) && k < |states|
    ensures StreamInv(states[k])
  {
    hide *;
    RunShape(states, steps);
    if k == 0 {
      InitStreams(states[0]);
    } else {
      RunStep(states, steps, k - 1);
      RunKeepsStreams(states, steps, k - 1);
      RunKeepsRefs(states, steps, k - 1);
      StepKeepsStreams(states[k - 1], steps[k - 1]);
    }
  }

  lemma FormatConsumes(s: State)
    requires LaneInv(s) && BlockShape(s) && Can(s, Format)
    ensures Do(s, Format).dispatcher.Consumed?
  {
    FormatEffect(s);
  }

  // push_ready never refuses a batch and every queued batch is of the current session, so
  // only the batch the drain caller holds can ever be dropped by generation.
  lemma NothingQueuedIsRefusedOrStale(states: seq<State>, steps: seq<Step>, k: nat)
    requires Run(states, steps) && Init(states[0]) && k < |steps|
    ensures steps[k].Format? ==> states[k + 1].dispatcher.Consumed?
    ensures Queued(states[k].show.lane.ready, states[k].show.gen)
  {
    RunKeepsStreams(states, steps, k);
    RunKeepsRefs(states, steps, k);
    assert Advances(states, steps, k);
    if steps[k].Format? { FormatConsumes(states[k]); }
  }

  // In a session that began with empty display lanes, whatever the pauses, deferrals, buffer
  // shortages, view switches and caller capacities: every published byte has been formatted
  // once, in order, or is waiting; and all text made of it was drained in order or is unread.
  lemma DisplayLosesNothing(states: seq<State>, steps: seq<Step>, k: nat)
    requires Run(states, steps) && Init(states[0]) && k < |states| && states[k].show.session
    ensures
      var s := states[k];
      && DL.WellFormed(s.show.lane)
      && s.show.published == Payloads(s.show.formatted) + Waiting(s)
      && Fold(s.show.formatted).1 == s.show.delivered + DL.Unread(s.show.lane)
  {
    RunKeepsStreams(states, steps, k);
  }

  // End to end: in a session that began with empty display lanes and used the text view, the
  // text drained so far is a prefix of the one-shot normalisation of everything published to
  // the display, and the rest is exactly the undrained text and the text still to come.
  lemma DisplayIsPrefixOfNormalised(states: seq<State>, steps: seq<Step>, k: nat)
    requires Run(states, steps) && Init(states[0]) && k < |states|
    requires states[k].show.session
    requires forall i :: 0 <= i < |states[k].show.formatted| ==> !states[k].show.formatted[i].hex
    ensures
      var s := states[k];
      && DL.WellFormed(s.show.lane)
      && Norm(FRESH, s.show.published).1 ==
           s.show.delivered + DL.Unread(s.show.lane) + Norm(s.show.carry, Waiting(s)).1
      && s.show.delivered <= Norm(FRESH, s.show.published).1
  {
    RunKeepsStreams(states, steps, k);
    var s := states[k];
    TextFoldIsNorm(s.show.formatted);
    NormConcat(FRESH, Payloads(s.show.formatted), Waiting(s));
  }
}
