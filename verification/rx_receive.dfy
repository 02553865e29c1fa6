// rx_kick_action and rx_format_block of xcom_core/src/ao/xcom_ao.cpp as the Dispatcher executes
// them. Undisturbed, one dispatched kick is one of the runs of RxPath.
module RxReceive {
  import opened Bytes
  import opened Normaliser
  import opened RxPath
  import opened RxRefs
  import opened RxStreams
  import opened RxIngress
  import DL = DisplayLane

  // A run that leads to s, with what every run keeps.
  ghost predicate Led(s0: State, steps: seq<Step>, s: State) {
    After(s0, steps) == Some(s) && RefInv(s) && LaneInv(s)
  }

  lemma LedPush(s0: State, steps: seq<Step>, s: State, step: Step)
    requires Led(s0, steps, s) && Can(s, step)
    ensures Led(s0, steps + [step], Do(s, step))
  {
    hide After, BlockShape, RefsMatch, RingsDistinct, OneInHand, LaneInv, Can, Do;
    AfterPush(s0, steps, s, step);
    StepKeepsLane(s, step);
  }

  lemma LedPop(s0: State, steps: seq<Step>, s: State, step: Step)
    requires Led(s0, steps, s) && CanPop(s, step)
    ensures Led(s0, steps + [step], DoPop(s, step))
  {
    hide Led;
    assert Can(s, step) && Do(s, step) == DoPop(s, step);
    LedPush(s0, steps, s, step);
  }

  lemma LedFormat(s0: State, steps: seq<Step>, s: State, step: Step)
    requires Led(s0, steps, s) && CanFormat(s, step)
    ensures Led(s0, steps + [step], DoFormat(s, step))
  {
    hide Led;
    assert Can(s, step) && Do(s, step) == DoFormat(s, step);
    LedPush(s0, steps, s, step);
  }

  lemma LedKick(s0: State, steps: seq<Step>, s: State, step: Step)
    requires Led(s0, steps, s) && CanKick(s, step)
    ensures Led(s0, steps + [step], DoKick(s, step))
  {
    hide Led;
    assert Can(s, step) && Do(s, step) == DoKick(s, step);
    LedPush(s0, steps, s, step);
  }

  // The lane after one block: its text queued, or its buffer handed back.
  function Queue(l: DL.Lane, id: nat, text: seq<byte>, d: Desc, gen: nat): DL.Lane
    requires id < |l.bufs|
  {
    if text == [] then l.(free := l.free + {id})
    else l.(bufs := l.bufs[id := Overwrite(l.bufs[id], text)],
            ready := l.ready + [DL.Batch(id, |text|, d.ms, gen, d.len, d.unlogged)])
  }

  // The machine after the block in hand has been formatted into buffer id.
  ghost predicate BlockFormatted(s: State, id: nat, t: State)
    requires s.dispatcher.Holding? && id < |s.show.lane.bufs|
  {
    var d := s.dispatcher.d;
    var made := FormatBlock(s.show.carry, Payload(s.pool.mem, d), s.show.hex);
    && t.pool == s.pool && t.kick == s.kick && t.dispatcher == Consumed(s.dispatcher.left, d)
    && t.show.carry == made.0 && t.show.hex == s.show.hex && t.show.paused == s.show.paused && t.show.gen == s.show.gen
    && t.show.lane == Queue(s.show.lane.(free := s.show.lane.free - {id}), id, made.1, d, s.show.gen)
    && |made.1| <= DL.BATCH_BYTES && |s.show.lane.ready| < DL.BATCHES
  }

  lemma FormatEnds(s: State, id: nat, a: State)
    requires LaneInv(a) && BlockShape(a) && CanFormat(s, Acquire(id)) && id < |s.show.lane.bufs|
    requires a == DoFormat(s, Acquire(id)) && CanFormat(a, Format)
    ensures BlockFormatted(s, id, DoFormat(a, Format))
  {
    FormatFits(a);
  }

  lemma BufferOf(s: State, id: nat)
    requires LaneInv(s) && CanFormat(s, Acquire(id))
    ensures id < |s.show.lane.bufs| && CanFormat(DoFormat(s, Acquire(id)), Format)
  {
    assert id in IdSet(DL.BATCHES);
  }

  lemma FormatRun(s0: State, steps: seq<Step>, s: State, id: nat) returns (more: seq<Step>, t: State)
    requires Led(s0, steps, s) && CanFormat(s, Acquire(id))
    ensures id < |s.show.lane.bufs| && Led(s0, more, t) && BlockFormatted(s, id, t)
  {
    hide After, RefsMatch, RingsDistinct, OneInHand, CanFormat, DoFormat, BlockFormatted;
    BufferOf(s, id);
    LedFormat(s0, steps, s, Acquire(id));
    var a := DoFormat(s, Acquire(id));
    LedFormat(s0, steps + [Acquire(id)], a, Format);
    FormatEnds(s, id, a);
    t, more := DoFormat(a, Format), steps + [Acquire(id)] + [Format];
  }

  lemma DispatchEffect(s: State)
    requires s.dispatcher.Resting? && s.kick.queued > 0
    ensures CanKick(s, Dispatch)
    ensures DoKick(s, Dispatch) == s.(kick := s.kick.(queued := s.kick.queued - 1), dispatcher := Popping(4))
  {}

  lemma StopEffect(s: State)
    requires s.dispatcher.Popping? && (s.dispatcher.left == 0 || (s.pool.deferred.None? && s.pool.display == []))
    ensures CanKick(s, StopPopping) && DoKick(s, StopPopping) == s.(dispatcher := Disarming)
  {}

  lemma ReleaseEffect(s: State)
    requires s.dispatcher.Consumed?
    ensures CanPop(s, ReleaseBlock)
    ensures DoPop(s, ReleaseBlock) == s.(pool := s.pool.(refs := DropRef(s.pool.refs, s.dispatcher.d.block)),
                                         dispatcher := Popping(s.dispatcher.left))
  {}

  lemma DisarmEffect(s: State)
    requires s.dispatcher.Disarming?
    ensures CanKick(s, Disarm) && DoKick(s, Disarm) == s.(kick := s.kick.(gate := false), dispatcher := Rechecking)
  {}

  lemma RecheckEffect(s: State)
    requires s.dispatcher.Rechecking? && !s.kick.gate
    ensures CanKick(s, Recheck)
    ensures DoKick(s, Recheck) ==
              if s.pool.deferred.None? && s.pool.display != []
              then s.(kick := Armed(s.kick), dispatcher := KickSubmitting) else s.(dispatcher := Resting)
  {}

  lemma SubmitEffect(s: State, ok: bool)
    requires s.dispatcher.KickSubmitting?
    ensures CanKick(s, KickSubmit(ok))
    ensures
      var t := DoKick(s, KickSubmit(ok));
      if ok then t == s.(kick := Accepted(s.kick), dispatcher := Resting)
      else
        && t == s.(kick := Rejected(s.kick), dispatcher := KickRefused)
        && CanKick(t, KickDisarm) && DoKick(t, KickDisarm) == t.(kick := Disarmed(t.kick), dispatcher := Resting)
  {}

  // How one turn of the loop ended.
  datatype Turn = Empty | Done | GaveUp

  class Receiver {
    var refs: seq<nat>
    var mem: seq<seq<byte>>
    var display: seq<Desc>
    var deferred: Option<Desc>
    var lane: DL.Lane
    var carry: Carry
    var gate: bool
    var paused: bool                 // pause_display
    var hex: bool                    // hex_view
    var gen: nat                     // generation
    ghost var machine: State

    // The fields are the machine's.
    ghost predicate Valid()
      reads this
    {
      && machine.pool.refs == refs && machine.pool.mem == mem
      && machine.pool.display == display && machine.pool.deferred == deferred
      && machine.show.lane == lane && machine.show.carry == carry && machine.kick.gate == gate
      && machine.show.paused == paused && machine.show.hex == hex && machine.show.gen == gen
    }

    // Blocks waiting to be formatted.
    function InLine(): nat
      reads this
    {
      |display| + (if deferred.Some? then 1 else 0)
    }

    // rx_format_block: false leaves the block with the caller. Only a paused view or an empty
    // buffer pool refuses a block, and then before the carry has moved.
    method Format(d: Desc, ghost s0: State, ghost steps: seq<Step>)
      returns (done: bool, ghost id: nat, ghost more: seq<Step>)
      requires Valid() && Led(s0, steps, machine)
      requires machine.dispatcher.Holding? && machine.dispatcher.d == d
      modifies this`lane, this`carry, this`machine
      ensures Led(s0, more, machine) && machine.kick == old(machine.kick)
      ensures done ==>
                && Valid() && id in old(lane).free && id < |old(lane).bufs|
                && BlockFormatted(old(machine), id, machine)
      ensures !done ==>
                && (paused || lane.free == {}) && lane == old(lane) && carry == old(carry)
                && machine == old(machine).(pool := old(machine).pool.(deferred := Some(d)), dispatcher := Disarming)
    {
      hide After, RefInv, LaneInv, DoFormat, FormatBlock;
      if paused || lane.free == {} {
        LedPop(s0, steps, machine, FormatRefused);
        machine, more := DoPop(machine, FormatRefused), steps + [FormatRefused];
        return false, 0, more;
      }
      var buf :| buf in lane.free;
      id := buf;
      ghost var t;
      more, t := FormatRun(s0, steps, machine, buf);
      lane := lane.(free := lane.free - {buf});
      var made := FormatBlock(carry, Payload(mem, d), hex);
      carry := made.0;
      if made.1 == [] {
        lane := lane.(free := lane.free + {buf});
      } else {
        assert |made.1| <= DL.BATCH_BYTES && |lane.ready| < DL.BATCHES;   // push_ready has room
        lane := Queue(lane, buf, made.1, d, gen);
      }
      machine := t;
      done := true;
    }

    // The front of the loop body: the deferred block first, then the display ring.
    method Next(ghost s0: State, ghost steps: seq<Step>) returns (d: Option<Desc>, ghost more: seq<Step>)
      requires Valid() && Led(s0, steps, machine) && machine.dispatcher.Popping? && machine.dispatcher.left > 0
      modifies this`display, this`deferred, this`machine
      ensures Valid() && Led(s0, more, machine) && machine.show == old(machine.show) && machine.kick == old(machine.kick)
      ensures d.None? ==> machine == old(machine) && deferred.None? && display == []
      ensures d.Some? ==> machine.dispatcher == Holding(old(machine).dispatcher.left - 1, d.value) && deferred.None?
      ensures d.Some? ==> if old(deferred).Some? then d == old(deferred) && display == old(display)
                          else [d.value] + display == old(display)
    {
      hide After, RefInv, LaneInv;
      if deferred.Some? {
        d, deferred := deferred, None;
        LedPop(s0, steps, machine, TakeDeferred);
        machine, more := DoPop(machine, TakeDeferred), steps + [TakeDeferred];
      } else if display == [] {
        d, more := None, steps;
      } else {
        d, display := Some(display[0]), display[1..];
        LedPop(s0, steps, machine, TakeReady);
        machine, more := DoPop(machine, TakeReady), steps + [TakeReady];
      }
    }

    // The tail: disarm, look again, and re-arm for what arrived meanwhile.
    method Wrap(submitted: bool, ghost s0: State, ghost steps: seq<Step>) returns (ghost more: seq<Step>)
      requires Valid() && Led(s0, steps, machine) && machine.dispatcher.Disarming?
      modifies this`gate, this`machine
      ensures Valid() && Led(s0, more, machine) && machine.dispatcher.Resting?
      ensures machine.pool == old(machine.pool) && machine.show == old(machine.show)
      ensures gate <==> deferred.None? && display != [] && submitted
      ensures machine.kick.queued == old(machine.kick.queued) + (if gate then 1 else 0)
    {
      hide Led, RefInv, LaneInv, CanKick, DoKick;
      DisarmEffect(machine);
      LedKick(s0, steps, machine, Disarm);
      gate := false;
      machine, more := DoKick(machine, Disarm), steps + [Disarm];
      RecheckEffect(machine);
      LedKick(s0, more, machine, Recheck);
      machine, more := DoKick(machine, Recheck), more + [Recheck];
      if deferred.None? && display != [] {
        gate := true;
        SubmitEffect(machine, submitted);
        LedKick(s0, more, machine, KickSubmit(submitted));
        machine, more := DoKick(machine, KickSubmit(submitted)), more + [KickSubmit(submitted)];
        if !submitted {
          gate := false;
          LedKick(s0, more, machine, KickDisarm);
          machine, more := DoKick(machine, KickDisarm), more + [KickDisarm];
        }
      }
    }

    // The loop body for one block, up to its release or its deferral.
    method TakeTurn(ghost s0: State, ghost steps: seq<Step>) returns (turn: Turn, ghost more: seq<Step>)
      requires Valid() && Led(s0, steps, machine) && machine.dispatcher.Popping? && machine.dispatcher.left > 0
      modifies this`refs, this`display, this`deferred, this`lane, this`carry, this`machine
      ensures Valid() && Led(s0, more, machine) && machine.kick == old(machine.kick)
      ensures turn.Empty? ==> InLine() == old(InLine()) == 0
      ensures turn.Done? ==> InLine() == old(InLine()) - 1
      ensures turn.GaveUp? ==> InLine() == old(InLine()) && deferred.Some?
      ensures turn.Empty? ==> machine == old(machine) && deferred.None? && display == []
      ensures turn.Done? ==> machine.dispatcher == Popping(old(machine).dispatcher.left - 1) && deferred.None?
      ensures turn.GaveUp? ==> machine.dispatcher.Disarming? && (paused || lane.free == {})
    {
      hide Led, FormatBlock, Queue, CanPop, DoPop, Payload;
      var next;
      next, more := Next(s0, steps);
      if next.None? { return Empty, more; }
      var done;
      ghost var id;
      done, id, more := Format(next.value, s0, more);
      if done {
        refs := DropRef(refs, next.value.block);
        ReleaseEffect(machine);
        LedPop(s0, more, machine, ReleaseBlock);
        machine, more := DoPop(machine, ReleaseBlock), more + [ReleaseBlock];
        turn := Done;
      } else {
        deferred := next;
        turn := GaveUp;
      }
    }

    // The action starts with the dispatch of the static event ...
    ghost method Start(s0: State) returns (steps: seq<Step>)
      requires Valid() && Led(s0, [], machine) && machine.dispatcher.Resting? && machine.kick.queued > 0
      modifies this`machine
      ensures Valid() && Led(s0, steps, machine) && machine.dispatcher == Popping(4)
      ensures machine.kick.queued == old(machine).kick.queued - 1
    {
      hide Led, CanKick, DoKick;
      DispatchEffect(machine);
      LedKick(s0, [], machine, Dispatch);
      machine, steps := DoKick(machine, Dispatch), [] + [Dispatch];
    }

    // ... and its loop ends after four blocks, or when none is left.
    ghost method Stop(s0: State, steps: seq<Step>) returns (more: seq<Step>)
      requires Valid() && Led(s0, steps, machine) && machine.dispatcher.Popping?
      requires machine.dispatcher.left == 0 || (deferred.None? && display == [])
      modifies this`machine
      ensures Valid() && Led(s0, more, machine) && machine.dispatcher.Disarming? && machine.kick == old(machine).kick
    {
      hide Led, CanKick, DoKick;
      StopEffect(machine);
      LedKick(s0, steps, machine, StopPopping);
      machine, more := DoKick(machine, StopPopping), steps + [StopPopping];
    }

    // rx_kick_action. It formats four of the waiting blocks, or all if there are fewer, unless one
    // is refused. A block is left deferred only by a paused view or an empty buffer pool;
    // blocks left on the ring have a new kick queued, unless its submission was refused.
    method KickAction(submitted: bool) returns (ghost steps: seq<Step>)
      requires Valid() && Led(machine, [], machine) && machine.dispatcher.Resting? && machine.kick.queued > 0
      modifies this`refs, this`display, this`deferred, this`lane, this`carry, this`gate, this`machine
      ensures Valid() && machine.dispatcher.Resting? && Led(old(machine), steps, machine)
      ensures deferred.Some? ==> paused || lane.free == {}
      ensures gate <==> deferred.None? && display != [] && submitted
      ensures machine.kick.queued == old(machine.kick.queued) - 1 + (if gate then 1 else 0)
      ensures InLine() >= old(InLine()) - 4
      ensures deferred.None? ==> InLine() == if old(InLine()) < 4 then 0 else old(InLine()) - 4
    {
      hide Led, Valid;
      ghost var s0 := machine;
      steps := Start(s0);
      var n := 0;
      while n < 4
        invariant Valid() && Led(s0, steps, machine) && 0 <= n <= 4 && machine.kick.queued == s0.kick.queued - 1
        invariant machine.dispatcher == Popping(4 - n) && (n > 0 ==> deferred.None?)
        invariant InLine() == old(InLine()) - n
      {
        var turn;
        turn, steps := TakeTurn(s0, steps);
        if turn.GaveUp? {
          steps := Wrap(submitted, s0, steps);
          return;
        }
        if turn.Empty? { break; }
        n := n + 1;
      }
      steps := Stop(s0, steps);
      steps := Wrap(submitted, s0, steps);
    }
  }
}
