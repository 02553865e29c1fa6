// rx_ingress of xcom_core/src/runtime/xcom_core.cpp over the block lane of
// xcom_core/src/foundation/rx_block_lane.hpp, as the read thread executes it. Undisturbed, its
// loop is one of the runs of RxPath.
module RxIngress {
  import opened Bytes
  import opened RxPath
  import opened RxRefs

  // The state a sequence of steps leads to, if each of them is possible in turn.
  function After(s: State, steps: seq<Step>): Option<State> {
    if steps == [] then Some(s)
    else
      var m := After(s, steps[..|steps| - 1]);
      var step := steps[|steps| - 1];
      if m.Some? && Can(m.value, step) then Some(Do(m.value, step)) else None
  }

  lemma AfterPush(s: State, steps: seq<Step>, m: State, step: Step)
    requires After(s, steps) == Some(m) && RefInv(m) && Can(m, step)
    ensures After(s, steps + [step]) == Some(Do(m, step)) && RefInv(Do(m, step))
  {
    hide RefInv, Can, Do;
    assert (steps + [step])[..|steps|] == steps;
    StepKeepsRefs(m, step);
  }

  lemma CutIsDo(s: State, step: Step)
    requires CanCut(s, step)
    ensures Can(s, step) && Do(s, step) == DoCut(s, step)
  {}

  lemma PublishIsDo(s: State, step: Step)
    requires CanPublish(s, step)
    ensures Can(s, step) && Do(s, step) == DoPublish(s, step)
  {}

  lemma ReturnIsDo(s: State, step: Step)
    requires CanReturn(s, step)
    ensures Can(s, step) && Do(s, step) == DoReturn(s, step)
  {}

  // What one turn of the loop makes of the machine: claim, fan out, count.
  ghost predicate SegmentDone(s: State, b: nat, ms: nat, t: State)
    requires CanCut(s, Claim(b, ms))
  {
    var i := s.reader.i;
    var n := Min(|i.rest|, BLOCK_BYTES);
    var ok := ClaimLeaves(s.pool.refs, if i.fileLane then RESERVE else 0);
    var d := Desc(b, n, ms, !i.fileLane);
    var once := AddRef(s.pool.refs, b);
    && t.reader == Cutting(i.(rest := i.rest[n..], accepted := i.accepted + n, backlog := i.backlog + if ok then 0 else n))
    && t.pool == Pool(if i.fileLane && ok then AddRef(once, b) else once,
                      s.pool.mem[b := Overwrite(s.pool.mem[b], i.rest[..n])],
                      if ok then s.pool.display + [d] else s.pool.display,
                      if i.fileLane then s.pool.raw + [d] else s.pool.raw, s.pool.deferred)
    && t.counters == s.counters.(rxBytes := s.counters.rxBytes + n)
    && t.kick == s.kick && t.log.accepting == s.log.accepting
    && t.log.leased == s.log.leased + (if i.fileLane then i.rest[..n] else [])
    && t.show.published == s.show.published + (if ok then i.rest[..n] else [])
    && (!i.fileLane ==> ok)
  }

  lemma CanClaim(s: State, b: nat, ms: nat)
    requires RefInv(s) && s.reader.Cutting? && s.reader.i.rest != [] && b in FreeBlocks(s.pool.refs)
    ensures CanCut(s, Claim(b, ms)) && b < |s.pool.mem|
  {}

  lemma FanOut(s: State, b: nat, ms: nat, c: State)
    requires CanCut(s, Claim(b, ms)) && c == DoCut(s, Claim(b, ms)) && RingsDistinct(c) && BlockShape(s)
    ensures c.reader.i.fileLane ==> CanPublish(c, PushRaw)
    ensures
      var d := if c.reader.i.fileLane then DoPublish(c, PushRaw) else c;
      var last := if c.reader.displayOk then PushDisplay else SkipDisplay;
      && CanPublish(d, last)
      && CanPublish(DoPublish(d, last), RxPath.Count)
      && SegmentDone(s, b, ms, DoPublish(DoPublish(d, last), RxPath.Count))
  {}

  lemma SegmentRun(s0: State, steps: seq<Step>, s: State, b: nat, ms: nat) returns (more: seq<Step>, t: State)
    requires After(s0, steps) == Some(s) && RefInv(s) && CanCut(s, Claim(b, ms))
    ensures After(s0, more) == Some(t) && RefInv(t) && SegmentDone(s, b, ms, t)
  {
    hide After, SegmentDone, BlockShape, RefsMatch, RingsDistinct, OneInHand, CanCut, DoCut, CanPublish, DoPublish, Can, Do;
    CutIsDo(s, Claim(b, ms));
    AfterPush(s0, steps, s, Claim(b, ms));
    var c := DoCut(s, Claim(b, ms));
    more := steps + [Claim(b, ms)];
    FanOut(s, b, ms, c);
    var d := c;
    if c.reader.i.fileLane {
      PublishIsDo(c, PushRaw);
      AfterPush(s0, more, c, PushRaw);
      d, more := DoPublish(c, PushRaw), more + [PushRaw];
    }
    var last := if c.reader.displayOk then PushDisplay else SkipDisplay;
    PublishIsDo(d, last);
    AfterPush(s0, more, d, last);
    var e := DoPublish(d, last);
    more := more + [last];
    PublishIsDo(e, RxPath.Count);
    AfterPush(s0, more, e, RxPath.Count);
    t, more := DoPublish(e, RxPath.Count), more + [RxPath.Count];
  }

  // What the tail of the call makes of it: the rest charged, the backlog counted, one kick
  // attempted if anything was accepted.
  ghost predicate TailDone(s: State, submitted: bool, t: State)
    requires s.reader.Cutting?
  {
    var i := s.reader.i;
    && t.reader == NoCall && t.pool == s.pool && t.log == s.log && t.show == s.show
    && t.counters == s.counters.(rejected := s.counters.rejected + |i.rest|,
                                 exhausted := s.counters.exhausted + i.backlog)
    && t.kick.gate == (s.kick.gate || (i.accepted > 0 && submitted))
  }

  function Leave(s: State): Step { if s.reader.Cutting? && s.reader.i.rest == [] then EndOfData else GiveUp }

  lemma ArmRun(s0: State, steps: seq<Step>, s: State, submitted: bool) returns (more: seq<Step>, t: State)
    requires After(s0, steps) == Some(s) && RefInv(s) && s.reader.Arming?
    ensures After(s0, more) == Some(t) && RefInv(t) && t.reader == Returning(s.reader.i)
    ensures t.pool == s.pool && t.counters == s.counters && t.log == s.log && t.show == s.show
    ensures t.kick.gate == (s.kick.gate || submitted)
  {
    hide After, BlockShape, RefsMatch, RingsDistinct, OneInHand, Can, Do;
    ReturnIsDo(s, ReaderArm);
    AfterPush(s0, steps, s, ReaderArm);
    t, more := DoReturn(s, ReaderArm), steps + [ReaderArm];
    if !s.kick.gate {
      ReturnIsDo(t, ReaderSubmit(submitted));
      AfterPush(s0, more, t, ReaderSubmit(submitted));
      t, more := DoReturn(t, ReaderSubmit(submitted)), more + [ReaderSubmit(submitted)];
      if !submitted {
        ReturnIsDo(t, ReaderDisarm);
        AfterPush(s0, more, t, ReaderDisarm);
        t, more := DoReturn(t, ReaderDisarm), more + [ReaderDisarm];
      }
    }
  }

  lemma TailRun(s0: State, steps: seq<Step>, s: State, submitted: bool) returns (more: seq<Step>, t: State)
    requires After(s0, steps) == Some(s) && RefInv(s)
    requires s.reader.Cutting? && (s.reader.i.rest == [] || FreeBlocks(s.pool.refs) == {})
    ensures After(s0, more) == Some(t) && RefInv(t) && TailDone(s, submitted, t)
  {
    hide After, BlockShape, RefsMatch, RingsDistinct, OneInHand, Can, Do;
    CutIsDo(s, Leave(s));
    AfterPush(s0, steps, s, Leave(s));
    t, more := DoCut(s, Leave(s)), steps + [Leave(s)];
    if t.reader.Arming? { more, t := ArmRun(s0, more, t, submitted); }
    ReturnIsDo(t, ReleaseLease);
    AfterPush(s0, more, t, ReleaseLease);
    t, more := DoReturn(t, ReleaseLease), more + [ReleaseLease];
  }

  // What the first n bytes of a callback leave in the two streams: on the file lane all of them
  // go to the file, and without it all of them go to the display.
  predicate Streamed(before: State, after: State, data: seq<byte>, n: nat) {
    && n <= |data|
    && after.log.leased == before.log.leased + (if before.log.accepting then data[..n] else [])
    && (!before.log.accepting ==> after.show.published == before.show.published + data[..n])
  }

  lemma StreamedNothing(before: State, after: State, data: seq<byte>)
    requires after.log.leased == before.log.leased && after.show.published == before.show.published
    ensures Streamed(before, after, data, 0)
  {
    assert before.log.leased + [] == before.log.leased && before.show.published + [] == before.show.published;
  }

  lemma StreamedMore(before: State, mid: State, after: State, data: seq<byte>, k: nat, n: nat, shown: bool)
    requires Streamed(before, mid, data, k) && k + n <= |data| && (!before.log.accepting ==> shown)
    requires after.log.leased == mid.log.leased + (if before.log.accepting then data[k..][..n] else [])
    requires after.show.published == mid.show.published + (if shown then data[k..][..n] else [])
    ensures Streamed(before, after, data, k + n)
  {
    assert data[..k + n] == data[..k] + data[k..][..n];
    Join(before.log.leased, data[..k], data[k..][..n]);
    Join(before.show.published, data[..k], data[k..][..n]);
    assert !before.log.accepting ==> (before.log.leased + []) + [] == before.log.leased + [];
  }

  lemma Join(a: seq<byte>, b: seq<byte>, c: seq<byte>)
    ensures a + (b + c) == (a + b) + c
  {}

  lemma StreamedSame(before: State, mid: State, after: State, data: seq<byte>, n: nat)
    requires Streamed(before, mid, data, n) && after.log == mid.log && after.show == mid.show
    ensures Streamed(before, after, data, n)
  {}

  lemma BeginEffect(s: State, data: seq<byte>)
    requires RefInv(s) && s.reader.NoCall? && data != []
    ensures CanCut(s, Begin(data)) && After(s, [Begin(data)]) == Some(DoCut(s, Begin(data)))
    ensures
      var t := DoCut(s, Begin(data));
      && RefInv(t) && t.reader == Cutting(RxPath.Ingress.Ingress(s.log.accepting, data, 0, 0))
      && t.pool == s.pool && t.counters == s.counters && t.kick == s.kick && t.log == s.log && t.show == s.show
  {
    CutIsDo(s, Begin(data));
    FirstStep(s, Begin(data));
  }

  lemma RejectEffect(s: State, data: seq<byte>)
    requires RefInv(s) && s.reader.NoCall?
    ensures CanCut(s, Reject(data)) && After(s, [Reject(data)]) == Some(DoCut(s, Reject(data)))
    ensures
      var t := DoCut(s, Reject(data));
      && RefInv(t) && t.reader == NoCall && t.pool == s.pool && t.kick == s.kick && t.log == s.log && t.show == s.show
      && t.counters == s.counters.(rejected := s.counters.rejected + |data|)
  {
    CutIsDo(s, Reject(data));
    FirstStep(s, Reject(data));
  }

  class ReadThread {
    var refs: seq<nat>
    var mem: seq<seq<byte>>
    var display: seq<Desc>
    var raw: seq<Desc>
    var counters: Counters
    var gate: bool
    var accepting: bool
    ghost var machine: State

    // The fields are the machine's.
    ghost predicate Valid()
      reads this
    {
      && machine.pool == Pool(refs, mem, display, raw, machine.pool.deferred)
      && machine.counters == counters && machine.kick.gate == gate && machine.log.accepting == accepting
      && RefInv(machine)
    }

    // RxBlockLane::try_alloc
    method TryAlloc(fileLane: bool) returns (block: Option<nat>, displayOk: bool)
      modifies this`refs
      ensures block.None? <==> FreeBlocks(old(refs)) == {}
      ensures block.None? ==> refs == old(refs) && !displayOk
      ensures block.Some? ==>
                && block.value in FreeBlocks(old(refs)) && refs == AddRef(old(refs), block.value)
                && (displayOk <==> ClaimLeaves(old(refs), if fileLane then RESERVE else 0))
    {
      var free := FreeBlocks(refs);
      var margin := if fileLane then RESERVE else 0;
      displayOk := |free| >= margin + 1;
      if !displayOk && (!fileLane || free == {}) {
        assert !fileLane ==> |free| == 0;
        return None, false;
      }
      assert free != {};
      var b :| b in free;
      refs := AddRef(refs, b);
      block := Some(b);
    }

    // RxBlockLane::publish
    method Publish(d: Desc, fileLane: bool, displayOk: bool) returns (shown: bool)
      modifies this`refs, this`raw, this`display
      ensures refs == if fileLane && displayOk then AddRef(old(refs), d.block) else old(refs)
      ensures raw == if fileLane then old(raw) + [d.(unlogged := !fileLane)] else old(raw)
      ensures display == if displayOk then old(display) + [d.(unlogged := !fileLane)] else old(display)
      ensures shown == displayOk
    {
      if fileLane && displayOk { refs := AddRef(refs, d.block); }
      if fileLane { raw := raw + [d.(unlogged := false)]; }
      if displayOk { display := display + [d.(unlogged := !fileLane)]; }
      shown := displayOk;
    }

    // One turn of the loop: claim a block, copy a piece into it, publish it and count it.
    // n is the size of the piece, 0 when no block could be claimed.
    method TakeSegment(fileLane: bool, rest: seq<byte>, ms: nat, ghost s0: State, ghost steps: seq<Step>)
      returns (n: nat, shown: bool, ghost more: seq<Step>)
      requires Valid() && After(s0, steps) == Some(machine)
      requires machine.reader.Cutting? && machine.reader.i.fileLane == fileLane && machine.reader.i.rest == rest != []
      modifies this
      ensures Valid() && After(s0, more) == Some(machine)
      ensures n == 0 ==> machine == old(machine) && FreeBlocks(refs) == {}
      ensures n > 0 ==>
                && n == Min(|rest|, BLOCK_BYTES)
                && machine.reader == Cutting(RxPath.Ingress.Ingress(fileLane, rest[n..], old(machine).reader.i.accepted + n,
                                                            old(machine).reader.i.backlog + if shown then 0 else n))
                && counters == old(counters).(rxBytes := old(counters).rxBytes + n)
                && gate == old(gate) && accepting == old(accepting)
                && machine.log.leased == old(machine).log.leased + (if fileLane then rest[..n] else [])
                && machine.show.published == old(machine).show.published + (if shown then rest[..n] else [])
                && (shown <==> ClaimLeaves(old(refs), if fileLane then RESERVE else 0)) && (!fileLane ==> shown)
    {
      hide After, RefInv, CanCut, Can, Do, Overwrite, FreeBlocks, ClaimLeaves, AddRef;
      ghost var before := machine;
      var block, displayOk := TryAlloc(fileLane);
      if block.None? { return 0, false, steps; }
      var b := block.value;
      n := if |rest| > BLOCK_BYTES then BLOCK_BYTES else |rest|;
      ghost var after;
      CanClaim(before, b, ms);
      more, after := SegmentRun(s0, steps, before, b, ms);
      assert Overwrite(mem[b], rest[..n]) == Overwrite(before.pool.mem[b], before.reader.i.rest[..n]);
      mem := mem[b := Overwrite(mem[b], rest[..n])];
      shown := Publish(Desc(b, n, ms, !fileLane), fileLane, displayOk);
      counters := counters.(rxBytes := counters.rxBytes + n);
      machine := after;
    }

    // After the loop: charge what found no owner, count the display backlog, wake the
    // Dispatcher once.
    method Finish(remaining: nat, accepted: nat, backlog: nat, submitted: bool, ghost s0: State, ghost steps: seq<Step>)
      returns (ghost more: seq<Step>)
      requires Valid() && After(s0, steps) == Some(machine) && machine.reader.Cutting?
      requires machine.reader.i.rest == [] || FreeBlocks(refs) == {}
      requires |machine.reader.i.rest| == remaining
      requires machine.reader.i.accepted == accepted && machine.reader.i.backlog == backlog
      modifies this
      ensures Valid() && After(s0, more) == Some(machine) && machine.reader == NoCall
      ensures counters == old(counters).(exhausted := old(counters).exhausted + backlog,
                                         rejected := old(counters).rejected + remaining)
      ensures refs == old(refs) && machine.log == old(machine).log && machine.show == old(machine).show
      ensures gate == (old(gate) || (accepted > 0 && submitted))
    {
      hide After, RefInv, Can, Do, DoCut, DoPublish, DoReturn;
      ghost var after;
      more, after := TailRun(s0, steps, machine, submitted);
      counters := counters.(exhausted := counters.exhausted + backlog, rejected := counters.rejected + remaining);
      if accepted > 0 && !gate { gate := submitted; }
      machine := after;
    }

    // The loop: `waits` is how often wait_for_free returns before the session is found closing;
    // undisturbed, no wait frees a block. Returns what is left of the data.
    method CutAll(data: seq<byte>, ms: nat, waits: nat, ghost s0: State, ghost steps: seq<Step>)
      returns (remaining: seq<byte>, backlog: nat, ghost more: seq<Step>)
      requires Valid() && After(s0, steps) == Some(machine) && accepting == s0.log.accepting
      requires machine.reader == Cutting(RxPath.Ingress.Ingress(accepting, data, 0, 0))
      requires machine.log == s0.log && machine.show == s0.show
      modifies this
      ensures Valid() && After(s0, more) == Some(machine) && |remaining| <= |data|
      ensures machine.reader == Cutting(RxPath.Ingress.Ingress(old(accepting), remaining, |data| - |remaining|, backlog))
      ensures remaining == [] || FreeBlocks(refs) == {}
      ensures counters == old(counters).(rxBytes := old(counters).rxBytes + |data| - |remaining|)
      ensures gate == old(gate) && Streamed(s0, machine, data, |data| - |remaining|)
    {
      hide After, RefInv, Can, Do, Streamed, FreeBlocks;
      StreamedNothing(s0, machine, data);
      var fileLane, turns := accepting, 0;
      remaining, backlog, more := data, 0, steps;
      while remaining != []
        invariant Valid() && After(s0, more) == Some(machine) && fileLane == s0.log.accepting
        invariant machine.reader == Cutting(RxPath.Ingress.Ingress(fileLane, remaining, |data| - |remaining|, backlog))
        invariant |remaining| <= |data| && remaining == data[|data| - |remaining|..] && turns <= waits
        invariant counters == old(counters).(rxBytes := old(counters).rxBytes + |data| - |remaining|)
        invariant gate == old(gate) && Streamed(s0, machine, data, |data| - |remaining|)
        decreases |remaining|, waits - turns
      {
        ghost var mid, k := machine, |data| - |remaining|;
        var n, shown;
        n, shown, more := TakeSegment(fileLane, remaining, ms, s0, more);
        if n == 0 {
          if fileLane && turns < waits {
            turns := turns + 1;
            continue;
          }
          return;
        }
        if !shown { backlog := backlog + n; }
        StreamedMore(s0, mid, machine, data, k, n, shown);
        remaining := remaining[n..];
      }
    }

    // rx_ingress
    method Deliver(data: seq<byte>, portOpen: bool, ms: nat, waits: nat, submitted: bool)
      returns (all: bool, ghost steps: seq<Step>)
      requires Valid() && machine.reader == NoCall
      modifies this
      ensures Valid() && machine.reader == NoCall
      ensures After(old(machine), steps) == Some(machine)
      ensures counters.rxBytes + counters.rejected == old(counters.rxBytes) + old(counters.rejected) + |data|
      ensures all <==> counters.rejected == old(counters.rejected)
      ensures counters.rxBytes >= old(counters.rxBytes)
      ensures Streamed(old(machine), machine, data, counters.rxBytes - old(counters.rxBytes))
      ensures !all ==> !portOpen || FreeBlocks(refs) == {}
      ensures gate == (old(gate) || (counters.rxBytes > old(counters.rxBytes) && submitted))
    {
      hide After, RefInv, CanCut, DoCut, Can, Do, Streamed, FreeBlocks;
      ghost var s0 := machine;
      if data == [] {
        NoStep(machine);
        StreamedNothing(s0, machine, data);
        return true, [];
      }
      if !portOpen {
        RejectEffect(machine, data);
        machine := DoCut(machine, Reject(data));
        counters := counters.(rejected := counters.rejected + |data|);
        StreamedNothing(s0, machine, data);
        return false, [Reject(data)];
      }
      BeginEffect(machine, data);
      machine := DoCut(machine, Begin(data));
      var remaining, backlog;
      remaining, backlog, steps := CutAll(data, ms, waits, s0, [Begin(data)]);
      ghost var mid := machine;
      steps := Finish(|remaining|, |data| - |remaining|, backlog, submitted, s0, steps);
      StreamedSame(s0, mid, machine, data, |data| - |remaining|);
      all := remaining == [];
    }
  }

  lemma NoStep(s: State)
    ensures After(s, []) == Some(s)
  {}

  lemma FirstStep(s: State, step: Step)
    requires RefInv(s) && Can(s, step)
    ensures After(s, [step]) == Some(Do(s, step)) && RefInv(Do(s, step))
  {
    AfterPush(s, [], s, step);
    assert [] + [step] == [step];
  }
}
