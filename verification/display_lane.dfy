// DisplayLane of xcom_core/src/runtime/xcom_core.hpp: 32 text buffers that move between the
// pool, the Dispatcher that fills them, the ready ring and the single drain caller.
module DisplayLane {
  import opened Bytes

  const BATCHES := 32                // kDisplayBatchCount
  const BATCH_BYTES := 16384         // kDisplayBatchBytes

  // DisplayDesc; `source` and `unlogged` are the two parts of rx_meta.
  datatype Batch = Batch(buf: nat, len: nat, ingressMs: nat, gen: nat, source: nat, unlogged: bool)

  datatype Active = Active(batch: Batch, offset: nat)

  datatype Lane = Lane(
    free: set<nat>,              // buffers_: the pool, see FixedPool for its own safety
    bufs: seq<seq<byte>>,
    ready: seq<Batch>,           // ready_ring_
    consumer: Option<Active>)    // consumer_desc_, consumer_offset_, consumer_active_

  // What one drain_into call did.
  datatype Drained = Drained(lane: Lane, found: bool, output: seq<byte>, completed: bool, ingressMs: nat)

  function NewLane(): Lane {
    Lane(IdSet(BATCHES), seq(BATCHES, _ => seq(BATCH_BYTES, _ => 0)), [], None)
  }

  function Ids(batches: seq<Batch>): set<nat> { set b | b in batches :: b.buf }

  // How many batches at the head of the ring belong to another session.
  function Stale(ready: seq<Batch>, gen: nat): (k: nat)
    ensures k <= |ready|
    ensures k < |ready| ==> ready[k].gen == gen
    ensures forall i :: 0 <= i < k ==> ready[i].gen != gen
  {
    if ready == [] || ready[0].gen == gen then 0 else 1 + Stale(ready[1..], gen)
  }

  function DropStaleActive(l: Lane, gen: nat): Lane {
    if l.consumer.Some? && l.consumer.value.batch.gen != gen
    then l.(free := l.free + {l.consumer.value.batch.buf}, consumer := None) else l
  }

  function Activate(l: Lane, gen: nat): Lane {
    if l.consumer.Some? then l
    else
      var k := Stale(l.ready, gen);
      if k == |l.ready| then l.(free := l.free + Ids(l.ready), ready := [])
      else l.(free := l.free + Ids(l.ready[..k]), ready := l.ready[k + 1..],
              consumer := Some(Active(l.ready[k], 0)))
  }

  function CopyOut(l: Lane, capacity: nat): Drained
    requires l.consumer.Some? && WellFormed(l)
  {
    var Active(b, offset) := l.consumer.value;
    var count := Min(b.len - offset, capacity);
    var output := l.bufs[b.buf][offset..offset + count];
    if offset + count == b.len
    then Drained(l.(free := l.free + {b.buf}, consumer := None), true, output, true, b.ingressMs)
    else Drained(l.(consumer := Some(Active(b, offset + count))), true, output, false, b.ingressMs)
  }

  // drain_into, as a function of the lane.
  function Drain(l: Lane, capacity: nat, gen: nat): Drained
    requires WellFormed(l)
  {
    if capacity == 0 then Drained(l, false, [], false, 0)
    else
      var l2 := Activate(DropStaleActive(l, gen), gen);
      if l2.consumer.None? then Drained(l2, false, [], false, 0) else CopyOut(l2, capacity)
  }

  function UnloggedBytes(ready: seq<Batch>): nat {
    if ready == [] then 0
    else (if ready[0].unlogged then ready[0].source else 0) + UnloggedBytes(ready[1..])
  }

  // The session-boundary reset of the ready ring.
  function Reset(l: Lane): Lane { l.(free := l.free + Ids(l.ready), ready := []) }

  // ---- what every operation keeps ---------------------------------------------

  predicate WellBatch(l: Lane, b: Batch) { b.buf < |l.bufs| && b.len <= |l.bufs[b.buf]| }

  predicate WellFormed(l: Lane) {
    && (forall i :: 0 <= i < |l.ready| ==> WellBatch(l, l.ready[i]))
    && (l.consumer.Some? ==> WellBatch(l, l.consumer.value.batch) && l.consumer.value.offset <= l.consumer.value.batch.len)
  }

  function ActiveIds(l: Lane): set<nat> {
    if l.consumer.Some? then {l.consumer.value.batch.buf} else {}
  }

  predicate Shape(l: Lane) {
    && WellFormed(l) && |l.bufs| == BATCHES
    && (forall i :: 0 <= i < BATCHES ==> |l.bufs[i]| == BATCH_BYTES)
    && (forall i, j :: 0 <= i < j < |l.ready| ==> l.ready[i].buf != l.ready[j].buf)
  }

  // The four places share out the buffer ids.
  predicate Placed(free: set<nat>, held: set<nat>, queued: set<nat>, active: set<nat>) {
    && free !! held && free !! queued && free !! active
    && held !! queued && held !! active && queued !! active
    && free + held + queued + active == IdSet(BATCHES)
  }

  // Each buffer is in exactly one of pool, producer (`held`), ready ring and consumer.
  predicate Partition(l: Lane, held: set<nat>) {
    Shape(l) && Placed(l.free, held, Ids(l.ready), ActiveIds(l))
  }

  lemma InIds(batches: seq<Batch>, i: nat)
    requires i < |batches|
    ensures batches[i].buf in Ids(batches)
  {}

  lemma IdsConcat(a: seq<Batch>, b: seq<Batch>)
    ensures Ids(a + b) == Ids(a) + Ids(b)
  {}

  lemma EmptyPartition()
    ensures Partition(NewLane(), {})
  {}

  // The ready ring has room for every buffer the Dispatcher can hold: push_ready never fails.
  lemma PushReadyHasRoom(l: Lane, held: set<nat>)
    requires Partition(l, held) && held != {}
    ensures |l.ready| < BATCHES
  {
    var h :| h in held;
    var ids := seq(|l.ready|, i requires 0 <= i < |l.ready| => l.ready[i].buf) + [h];
    forall i | 0 <= i < |l.ready| ensures ids[i] < BATCHES && ids[i] != h {
      InIds(l.ready, i);
      assert ids[i] in IdSet(BATCHES);
    }
    assert h in IdSet(BATCHES);
    DistinctBound(ids, BATCHES);
  }

  // Splitting a ring of distinct buffers at k splits its ids.
  lemma RingSplit(ready: seq<Batch>, k: nat)
    requires k < |ready| && forall i, j :: 0 <= i < j < |ready| ==> ready[i].buf != ready[j].buf
    ensures Ids(ready) == Ids(ready[..k]) + {ready[k].buf} + Ids(ready[k + 1..])
    ensures ready[k].buf !in Ids(ready[..k]) && ready[k].buf !in Ids(ready[k + 1..])
    ensures Ids(ready[..k]) !! Ids(ready[k + 1..])
  {}

  lemma PlacedActivate(free: set<nat>, held: set<nat>, a: set<nat>, x: nat, b: set<nat>)
    requires Placed(free, held, a + {x} + b, {}) && a !! b && x !in a && x !in b
    ensures Placed(free + a, held, b, {x})
  {}

  lemma PlacedRetire(free: set<nat>, held: set<nat>, a: set<nat>, active: set<nat>)
    requires Placed(free, held, a, active)
    ensures Placed(free + a, held, {}, active)
  {}

  lemma PlacedTake(free: set<nat>, held: set<nat>, a: set<nat>, active: set<nat>, x: nat)
    requires Placed(free, held, a, active) && x in free
    ensures Placed(free - {x}, held + {x}, a, active)
  {}

  lemma PlacedReturn(free: set<nat>, held: set<nat>, a: set<nat>, active: set<nat>, x: nat)
    requires Placed(free, held, a, active) && x in held
    ensures Placed(free + {x}, held - {x}, a, active)
  {}

  lemma PlacedQueue(free: set<nat>, held: set<nat>, a: set<nat>, active: set<nat>, x: nat)
    requires Placed(free, held, a, active) && x in held
    ensures Placed(free, held - {x}, a + {x}, active)
  {}

  // Filling a buffer moves nothing.
  lemma FillPartition(l: Lane, held: set<nat>, id: nat, buf: seq<byte>)
    requires Partition(l, held) && id < |l.bufs| && |buf| == BATCH_BYTES
    ensures Partition(l.(bufs := l.bufs[id := buf]), held)
  {}

  lemma PushShape(l: Lane, b: Batch)
    requires Shape(l) && b.buf < BATCHES && b.len <= BATCH_BYTES
    requires forall i :: 0 <= i < |l.ready| ==> l.ready[i].buf != b.buf
    ensures Shape(l.(ready := l.ready + [b]))
  {}

  // Queueing a filled buffer moves its id from the producer to the ring.
  lemma PushPartition(l: Lane, held: set<nat>, b: Batch)
    requires Partition(l, held) && b.buf in held && b.len <= BATCH_BYTES
    ensures Partition(l.(ready := l.ready + [b]), held - {b.buf})
    ensures forall i :: 0 <= i < |l.ready| ==> l.ready[i].buf != b.buf
  {
    assert b.buf in IdSet(BATCHES);
    forall i | 0 <= i < |l.ready| ensures l.ready[i].buf != b.buf { InIds(l.ready, i); }
    PushShape(l, b);
    assert Ids([b]) == {b.buf};
    IdsConcat(l.ready, [b]);
    PlacedQueue(l.free, held, Ids(l.ready), ActiveIds(l), b.buf);
  }

  lemma ActivateShape(l: Lane, gen: nat)
    requires Shape(l)
    ensures Shape(Activate(l, gen))
  {}

  lemma ActivatePartition(l: Lane, gen: nat, held: set<nat>)
    requires Partition(l, held)
    ensures Partition(Activate(l, gen), held)
  {
    var k := Stale(l.ready, gen);
    ActivateShape(l, gen);
    if l.consumer.None? && k < |l.ready| {
      RingSplit(l.ready, k);
      PlacedActivate(l.free, held, Ids(l.ready[..k]), l.ready[k].buf, Ids(l.ready[k + 1..]));
    } else if l.consumer.None? {
      PlacedRetire(l.free, held, Ids(l.ready), {});
      assert Ids([]) == {};
    }
  }

  lemma DropStalePartition(l: Lane, gen: nat, held: set<nat>)
    requires Partition(l, held)
    ensures Partition(DropStaleActive(l, gen), held)
  {}

  lemma CopyPartition(l: Lane, capacity: nat, held: set<nat>)
    requires Partition(l, held) && l.consumer.Some?
    ensures Partition(CopyOut(l, capacity).lane, held)
  {}

  lemma DrainPartition(l: Lane, capacity: nat, gen: nat, held: set<nat>)
    requires Partition(l, held)
    ensures Partition(Drain(l, capacity, gen).lane, held)
  {
    DropStalePartition(l, gen, held);
    var l2 := Activate(DropStaleActive(l, gen), gen);
    ActivatePartition(DropStaleActive(l, gen), gen, held);
    if l2.consumer.Some? { CopyPartition(l2, capacity, held); }
  }

  lemma ResetPartition(l: Lane, held: set<nat>)
    requires Partition(l, held)
    ensures Partition(Reset(l), held)
  {}

  // ---- the text that is still to be shown ----------------------------------------

  function BatchText(l: Lane, b: Batch): seq<byte>
    requires WellBatch(l, b)
  {
    l.bufs[b.buf][..b.len]
  }

  function ReadyText(l: Lane, ready: seq<Batch>): seq<byte>
    requires forall i :: 0 <= i < |ready| ==> WellBatch(l, ready[i])
  {
    if ready == [] then [] else BatchText(l, ready[0]) + ReadyText(l, ready[1..])
  }

  // The unread rest of the active batch, then the ring in order.
  function Unread(l: Lane): seq<byte>
    requires WellFormed(l)
  {
    ActiveText(l) + ReadyText(l, l.ready)
  }

  function ActiveText(l: Lane): seq<byte>
    requires WellFormed(l)
  {
    if l.consumer.Some? then BatchText(l, l.consumer.value.batch)[l.consumer.value.offset..] else []
  }

  ghost predicate AllCurrent(l: Lane, gen: nat) {
    && (forall i :: 0 <= i < |l.ready| ==> l.ready[i].gen == gen)
    && (l.consumer.Some? ==> l.consumer.value.batch.gen == gen)
  }

  lemma ActivateStream(l: Lane, gen: nat)
    requires WellFormed(l) && AllCurrent(l, gen)
    ensures WellFormed(Activate(l, gen)) && AllCurrent(Activate(l, gen), gen)
    ensures Unread(Activate(l, gen)) == Unread(l)
    ensures Activate(l, gen).consumer.None? ==> Unread(l) == []
  {
    if l.consumer.None? && l.ready != [] {
      assert Stale(l.ready, gen) == 0;
      SameBuffersSameText(l, Activate(l, gen), l.ready[1..]);
      var b := l.ready[0];
      assert BatchText(l, b)[0..] == BatchText(l, b);
    }
  }

  lemma SliceSplit(buf: seq<byte>, len: nat, offset: nat, count: nat)
    requires offset + count <= len <= |buf|
    ensures buf[..len][offset..] == buf[offset..offset + count] + buf[..len][offset + count..]
  {}

  lemma CopyStream(l: Lane, capacity: nat)
    requires WellFormed(l) && l.consumer.Some?
    ensures WellFormed(CopyOut(l, capacity).lane)
    ensures Unread(l) == CopyOut(l, capacity).output + Unread(CopyOut(l, capacity).lane)
  {
    var d := CopyOut(l, capacity);
    var b, offset, count := l.consumer.value.batch, l.consumer.value.offset, |d.output|;
    SliceSplit(l.bufs[b.buf], b.len, offset, count);
    SameBuffersSameText(l, d.lane, l.ready);
    var rest, ready := BatchText(l, b)[offset + count..], ReadyText(l, l.ready);
    assert d.output + (rest + ready) == (d.output + rest) + ready;
    assert d.completed ==> rest == [];
  }

  // Draining hands out the front of the unread text, all of it once, for any capacity.
  lemma DrainStream(l: Lane, capacity: nat, gen: nat)
    requires WellFormed(l) && AllCurrent(l, gen)
    ensures WellFormed(Drain(l, capacity, gen).lane)
    ensures Unread(l) == Drain(l, capacity, gen).output + Unread(Drain(l, capacity, gen).lane)
    ensures AllCurrent(Drain(l, capacity, gen).lane, gen)
  {
    if capacity > 0 {
      ActivateStream(l, gen);
      assert DropStaleActive(l, gen) == l;
      if Activate(l, gen).consumer.Some? { CopyStream(Activate(l, gen), capacity); }
    }
  }

  // ---- how much one drain hands out -------------------------------------------------

  function FirstOf(ready: seq<Batch>, gen: nat): Option<Active> {
    if ready == [] then None
    else if ready[0].gen == gen then Some(Active(ready[0], 0))
    else FirstOf(ready[1..], gen)
  }

  // The batch session `gen` reads next and how far it is read: the active one if it is of this
  // session, else the first on the ring that is.
  function Front(l: Lane, gen: nat): Option<Active> {
    if l.consumer.Some? && l.consumer.value.batch.gen == gen then l.consumer else FirstOf(l.ready, gen)
  }

  // What is left of it to read.
  function Rest(l: Lane, a: Active): seq<byte>
    requires WellBatch(l, a.batch) && a.offset <= a.batch.len
  {
    BatchText(l, a.batch)[a.offset..]
  }

  lemma {:induction false} FirstIsAfterStale(ready: seq<Batch>, gen: nat)
    ensures
      var k := Stale(ready, gen);
      FirstOf(ready, gen) == if k < |ready| then Some(Active(ready[k], 0)) else None
  {
    if ready != [] && ready[0].gen != gen { FirstIsAfterStale(ready[1..], gen); }
  }

  lemma ActivateTakesFront(l: Lane, gen: nat)
    requires WellFormed(l)
    ensures
      var m := Activate(DropStaleActive(l, gen), gen);
      && m.consumer == Front(l, gen) && m.bufs == l.bufs && WellFormed(m)
      && (l.consumer.Some? && l.consumer.value.batch.gen == gen ==> m.ready == l.ready)
      && (AllCurrent(l, gen) && l.consumer.None? && l.ready != [] ==> m.ready == l.ready[1..])
  {
    FirstIsAfterStale(l.ready, gen);
  }

  // What a buffer of this size gets of batch a: as much of its rest as fits, and the word that
  // it is finished exactly if all of it did.
  predicate HandsOut(l: Lane, a: Active, capacity: nat, output: seq<byte>, completed: bool) {
    && WellBatch(l, a.batch) && a.offset <= a.batch.len
    && var rest := Rest(l, a);
    && output == rest[..Min(|rest|, capacity)]
    && (completed <==> capacity >= |rest|)
  }

  lemma CopyHandsOut(l: Lane, capacity: nat)
    requires WellFormed(l) && l.consumer.Some?
    ensures
      var r := CopyOut(l, capacity);
      HandsOut(l, l.consumer.value, capacity, r.output, r.completed)
  {
    var Active(b, offset) := l.consumer.value;
    var count := Min(b.len - offset, capacity);
    assert l.bufs[b.buf][..b.len][offset..][..count] == l.bufs[b.buf][offset..offset + count];
  }

  // A drain with room finds text exactly if the session has a batch left. It hands out the
  // smaller of the room and the rest of that batch, finishes the batch exactly if it fits, and
  // reports its arrival time.
  lemma DrainAmount(l: Lane, capacity: nat, gen: nat)
    requires WellFormed(l)
    ensures
      var r, a := Drain(l, capacity, gen), Front(l, gen);
      && (r.found <==> capacity > 0 && a.Some?)
      && (!r.found ==> r.output == [] && !r.completed)
      && (r.found ==>
            && HandsOut(l, a.value, capacity, r.output, r.completed)
            && r.ingressMs == a.value.batch.ingressMs
            && r.lane.consumer == if r.completed then None else Some(a.value.(offset := a.value.offset + capacity)))
  {
    if capacity > 0 {
      ActivateTakesFront(l, gen);
      var m := Activate(DropStaleActive(l, gen), gen);
      if m.consumer.Some? { CopyHandsOut(m, capacity); }
    }
  }

  // Batches not yet finished.
  function Batches(l: Lane): nat { |l.ready| + (if l.consumer.Some? then 1 else 0) }

  // n drains in a row each finish a batch, hand out `text` together and leave m.
  ghost predicate DrainsTo(l: Lane, capacity: nat, gen: nat, n: nat, text: seq<byte>, m: Lane)
    decreases n
  {
    if n == 0 then text == [] && m == l
    else
      && WellFormed(l)
      && var r := Drain(l, capacity, gen);
      r.completed && r.output <= text && DrainsTo(r.lane, capacity, gen, n - 1, text[|r.output|..], m)
  }

  predicate AllFit(l: Lane, capacity: nat) {
    && (forall i :: 0 <= i < |l.ready| ==> l.ready[i].len <= capacity)
    && (l.consumer.Some? ==> l.consumer.value.batch.len <= capacity)
  }

  lemma DrainFinishesOne(l: Lane, capacity: nat, gen: nat)
    requires WellFormed(l) && AllCurrent(l, gen) && AllFit(l, capacity) && capacity > 0 && Batches(l) > 0
    ensures
      var r := Drain(l, capacity, gen);
      r.completed && Batches(r.lane) == Batches(l) - 1 && AllFit(r.lane, capacity)
  {
    ActivateTakesFront(l, gen);
  }

  // A caller whose buffer holds any batch empties the lane in one call for each batch, and gets
  // the whole unread text.
  lemma {:induction false} DrainEmpties(l: Lane, capacity: nat, gen: nat) returns (m: Lane)
    requires WellFormed(l) && AllCurrent(l, gen) && AllFit(l, capacity) && capacity > 0
    ensures DrainsTo(l, capacity, gen, Batches(l), Unread(l), m)
    ensures m.ready == [] && m.consumer.None?
    decreases Batches(l)
  {
    hide Drain, Unread, AllCurrent, AllFit;
    if Batches(l) == 0 {
      NothingUnread(l);
      m := l;
    } else {
      DrainFinishesOne(l, capacity, gen);
      DrainStream(l, capacity, gen);
      var r := Drain(l, capacity, gen);
      assert Unread(l)[|r.output|..] == Unread(r.lane);
      m := DrainEmpties(r.lane, capacity, gen);
    }
  }

  lemma NothingUnread(l: Lane)
    requires WellFormed(l) && Batches(l) == 0
    ensures Unread(l) == []
  {}

  lemma {:induction false} SameBuffersSameText(l: Lane, m: Lane, ready: seq<Batch>)
    requires l.bufs == m.bufs
    requires forall i :: 0 <= i < |ready| ==> WellBatch(l, ready[i])
    ensures ReadyText(l, ready) == ReadyText(m, ready)
  {
    if ready != [] { SameBuffersSameText(l, m, ready[1..]); }
  }

  // Filling a buffer nobody else holds and queueing it appends its text, nothing else.
  lemma {:induction false} PushText(l: Lane, m: Lane, ready: seq<Batch>, b: Batch)
    requires forall i :: 0 <= i < |ready| ==> WellBatch(l, ready[i]) && ready[i].buf != b.buf
    requires |m.bufs| == |l.bufs| && forall i :: 0 <= i < |l.bufs| && i != b.buf ==> m.bufs[i] == l.bufs[i]
    requires WellBatch(m, b)
    ensures forall i :: 0 <= i < |ready| ==> WellBatch(m, ready[i])
    ensures ReadyText(m, ready + [b]) == ReadyText(l, ready) + BatchText(m, b)
  {
    if ready == [] {
      assert ready + [b] == [b] && [b][1..] == [];
    } else {
      assert (ready + [b])[1..] == ready[1..] + [b];
      PushText(l, m, ready[1..], b);
    }
  }

  lemma {:induction false} UnloggedConcat(a: seq<Batch>, b: seq<Batch>)
    ensures UnloggedBytes(a + b) == UnloggedBytes(a) + UnloggedBytes(b)
  {
    if a == [] {
      assert a + b == b;
    } else {
      assert (a + b)[1..] == a[1..] + b;
      UnloggedConcat(a[1..], b);
    }
  }

  // ---- the class --------------------------------------------------------------

  class Display {
    var free: set<nat>
    var bufs: seq<seq<byte>>
    var ready: seq<Batch>
    var consumerDesc: Batch
    var consumerOffset: nat
    var consumerActive: bool

    ghost function View(): Lane
      reads this
    {
      Lane(free, bufs, ready, if consumerActive then Some(Active(consumerDesc, consumerOffset)) else None)
    }

    constructor ()
      ensures View() == NewLane() && Partition(View(), {})
    {
      free := IdSet(BATCHES);
      bufs := seq(BATCHES, _ => seq(BATCH_BYTES, _ => 0));
      ready := [];
      consumerDesc := Batch(0, 0, 0, 0, 0, false);
      consumerOffset, consumerActive := 0, false;
      new;
      assert View() == NewLane();
    }

    // try_acquire: fails only on an empty pool.
    method TryAcquire(ghost held: set<nat>) returns (id: Option<nat>)
      requires Partition(View(), held)
      modifies this
      ensures id.None? <==> old(free) == {}
      ensures id.None? ==> View() == old(View())
      ensures id.Some? ==> id.value in old(free) && id.value !in held
      ensures id.Some? ==> View() == old(View()).(free := old(free) - {id.value})
      ensures id.Some? ==> Partition(View(), held + {id.value})
    {
      if free == {} {
        id := None;
      } else {
        var i :| i in free;
        PlacedTake(free, held, Ids(ready), ActiveIds(View()), i);
        free := free - {i};
        id := Some(i);
      }
    }

    method ReleaseBuf(id: nat, ghost held: set<nat>)
      requires Partition(View(), held) && id in held
      modifies this
      ensures View() == old(View()).(free := old(free) + {id})
      ensures Partition(View(), held - {id})
    {
      PlacedReturn(free, held, Ids(ready), ActiveIds(View()), id);
      free := free + {id};
    }

    // push_ready, with its full-ring branch. Its caller's partition rules that branch out.
    method PushReady(b: Batch, ghost held: set<nat>) returns (pushed: bool)
      requires Partition(View(), held) && b.buf in held && b.len <= BATCH_BYTES
      modifies this
      ensures pushed && View() == old(View()).(ready := old(ready) + [b])
      ensures Partition(View(), held - {b.buf})
    {
      PushReadyHasRoom(View(), held);
      PushPartition(View(), held, b);
      pushed := |ready| < BATCHES;
      if pushed { ready := ready + [b]; }
    }

    // reset: pops the ring one batch at a time, adding up the unlogged source bytes.
    method ResetReady() returns (drained: nat, unlogged: nat)
      modifies this
      ensures View() == Reset(old(View()))
      ensures drained == |old(ready)| && unlogged == UnloggedBytes(old(ready))
    {
      ghost var l := View();
      drained, unlogged := 0, 0;
      while ready != []
        invariant drained <= |l.ready| && ready == l.ready[drained..]
        invariant free == l.free + Ids(l.ready[..drained])
        invariant View().bufs == l.bufs && View().consumer == l.consumer
        invariant unlogged + UnloggedBytes(ready) == UnloggedBytes(l.ready)
        decreases |ready|
      {
        assert l.ready[..drained + 1] == l.ready[..drained] + [ready[0]];
        IdsConcat(l.ready[..drained], [ready[0]]);
        assert Ids([ready[0]]) == {ready[0].buf};
        var stale := ready[0];
        ready := ready[1..];
        free := free + {stale.buf};
        if stale.unlogged { unlogged := unlogged + stale.source; }
        drained := drained + 1;
      }
      assert l.ready[..drained] == l.ready;
    }

    // The inner loop of drain_into: release stale batches until a current one turns up.
    method PopCurrent(currentGeneration: nat)
      requires !consumerActive
      modifies this
      ensures View() == Activate(old(View()), currentGeneration)
    {
      ghost var l := View();
      ghost var k := 0;
      while true
        invariant !consumerActive && k <= Stale(l.ready, currentGeneration)
        invariant ready == l.ready[k..] && bufs == l.bufs
        invariant free == l.free + Ids(l.ready[..k])
        decreases |ready|
      {
        if ready == [] {
          assert l.ready[..k] == l.ready;
          return;
        }
        consumerDesc := ready[0];
        ready := ready[1..];
        if consumerDesc.gen == currentGeneration {
          consumerOffset := 0;
          consumerActive := true;
          return;
        }
        assert l.ready[..k + 1] == l.ready[..k] + [consumerDesc];
        IdsConcat(l.ready[..k], [consumerDesc]);
        assert Ids([consumerDesc]) == {consumerDesc.buf};
        free := free + {consumerDesc.buf};
        k := k + 1;
      }
    }

    // The copy of drain_into: a small caller buffer neither truncates a batch nor returns
    // its slot early.
    method CopyActive(capacity: nat) returns (output: seq<byte>, completed: bool)
      requires WellFormed(View()) && consumerActive
      modifies this
      ensures Drained(View(), true, output, completed, old(consumerDesc.ingressMs)) == CopyOut(old(View()), capacity)
      ensures HandsOut(old(View()), Active(old(consumerDesc), old(consumerOffset)), capacity, output, completed)
    {
      hide HandsOut;
      CopyHandsOut(View(), capacity);
      var remaining := consumerDesc.len - consumerOffset;
      var count := if remaining < capacity then remaining else capacity;
      output := bufs[consumerDesc.buf][consumerOffset..consumerOffset + count];
      consumerOffset := consumerOffset + count;
      completed := consumerOffset == consumerDesc.len;
      if completed {
        free := free + {consumerDesc.buf};
        consumerActive := false;
      }
    }

    // drain_into: drop a stale active batch, skip stale ring entries, copy what fits.
    method DrainInto(capacity: nat, currentGeneration: nat, ghost held: set<nat>)
      returns (found: bool, output: seq<byte>, completed: bool, ingress: nat)
      requires Partition(View(), held)
      modifies this
      ensures Drained(View(), found, output, completed, ingress) == Drain(old(View()), capacity, currentGeneration)
      ensures Partition(View(), held)
      ensures found <==> capacity > 0 && Front(old(View()), currentGeneration).Some?
      ensures found ==>
                var front := Front(old(View()), currentGeneration).value;
                HandsOut(old(View()), front, capacity, output, completed) && ingress == front.batch.ingressMs
    {
      ghost var l := View();
      DrainPartition(l, capacity, currentGeneration, held);
      DrainAmount(l, capacity, currentGeneration);
      hide HandsOut;
      found, output, completed, ingress := false, [], false, 0;
      if capacity == 0 { return; }
      if consumerActive && consumerDesc.gen != currentGeneration {
        free := free + {consumerDesc.buf};
        consumerActive := false;
      }
      assert View() == DropStaleActive(l, currentGeneration);
      DropStalePartition(l, currentGeneration, held);
      if !consumerActive {
        ActivatePartition(View(), currentGeneration, held);
        PopCurrent(currentGeneration);
        if !consumerActive { return; }
      }
      found := true;
      ingress := consumerDesc.ingressMs;
      output, completed := CopyActive(capacity);
    }
  }
}
