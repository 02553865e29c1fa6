// Reference counts of the RX block pool: each count is the number of holders, at every step
// of every interleaving; and what that gives: stable payloads, ring room, the file reserve.
module RxRefs {
  import opened Bytes
  import opened RxPath
  import DL = DisplayLane

  predicate WellDesc(d: Desc) { d.block < BLOCKS && 0 < d.len <= BLOCK_BYTES }

  predicate BlockShape(s: State) {
    && |s.pool.refs| == BLOCKS && |s.pool.mem| == BLOCKS
    && (forall b :: 0 <= b < BLOCKS ==> |s.pool.mem[b]| == BLOCK_BYTES)
    && (forall k :: 0 <= k < |s.pool.display| ==> WellDesc(s.pool.display[k]))
    && (forall k :: 0 <= k < |s.pool.raw| ==> WellDesc(s.pool.raw[k]))
    && (s.pool.deferred.Some? ==> WellDesc(s.pool.deferred.value))
    && (s.reader.Publishing? ==> WellDesc(s.reader.d))
    && (s.writer.Writing? ==> WellDesc(s.writer.d) && s.writer.offset <= s.writer.d.len)
    && (s.writer.Written? ==> WellDesc(s.writer.d))
    && (s.dispatcher.Holding? || s.dispatcher.Formatting? || s.dispatcher.Consumed? ==> WellDesc(s.dispatcher.d))
  }

  function One(c: bool): nat { if c then 1 else 0 }

  // How often block b is on a ring.
  function OnRing(ring: seq<Desc>, b: nat): nat {
    if ring == [] then 0 else One(ring[0].block == b) + OnRing(ring[1..], b)
  }

  function ReaderHolds(r: Reader, b: nat): nat {
    One(r.Publishing? && r.d.block == b && (!r.rawDone || r.displayOk))
  }

  predicate HandlesBlock(d: Dispatcher) { d.Holding? || d.Formatting? || d.Consumed? }

  function DisplaySideHolds(s: State, b: nat): nat {
    OnRing(s.pool.display, b)
    + One(s.pool.deferred.Some? && s.pool.deferred.value.block == b)
    + One(HandlesBlock(s.dispatcher) && s.dispatcher.d.block == b)
  }

  function FileSideHolds(s: State, b: nat): nat {
    OnRing(s.pool.raw, b) + One(!s.writer.Parked? && s.writer.d.block == b)
  }

  // All references to b: read thread, display side, file side.
  function Holders(s: State, b: nat): nat {
    ReaderHolds(s.reader, b) + DisplaySideHolds(s, b) + FileSideHolds(s, b)
  }

  ghost predicate RefsMatch(s: State) {
    forall b :: 0 <= b < |s.pool.refs| ==> s.pool.refs[b] == Holders(s, b)
  }

  // A block is on each ring at most once, and not yet on one it is about to be pushed to.
  ghost predicate RingsDistinct(s: State) {
    && (forall b :: 0 <= b < BLOCKS ==> OnRing(s.pool.display, b) <= 1 && OnRing(s.pool.raw, b) <= 1)
    && (s.reader.Publishing? ==>
          && OnRing(s.pool.display, s.reader.d.block) == 0
          && (!s.reader.rawDone ==> OnRing(s.pool.raw, s.reader.d.block) == 0)
          && s.reader.d.unlogged == !s.reader.i.fileLane
          && (s.reader.rawDone ==> s.reader.i.fileLane)
          && (!s.reader.i.fileLane ==> s.reader.displayOk))
  }

  // The deferred slot is empty while the Dispatcher has a block in hand.
  predicate OneInHand(s: State) {
    && (HandlesBlock(s.dispatcher) ==> s.pool.deferred.None?)
    && (s.dispatcher.Popping? && s.dispatcher.left < 4 ==> s.pool.deferred.None?)
  }

  ghost predicate RefInv(s: State) {
    BlockShape(s) && RefsMatch(s) && RingsDistinct(s) && OneInHand(s)
  }

  lemma RefShape(s: State)
    requires RefInv(s)
    ensures BlockShape(s)
  {}

  lemma {:induction false} OnRingConcat(a: seq<Desc>, c: seq<Desc>, b: nat)
    ensures OnRing(a + c, b) == OnRing(a, b) + OnRing(c, b)
  {
    if a == [] {
      assert a + c == c;
    } else {
      assert (a + c)[1..] == a[1..] + c;
      OnRingConcat(a[1..], c, b);
    }
  }

  lemma OnRingPush(ring: seq<Desc>, d: Desc)
    ensures forall b: nat :: OnRing(ring + [d], b) == OnRing(ring, b) + One(d.block == b)
  {
    forall b: nat ensures OnRing(ring + [d], b) == OnRing(ring, b) + One(d.block == b) {
      OnRingConcat(ring, [d], b);
      assert [d][1..] == [];
    }
  }

  lemma {:induction false} OnRingIn(ring: seq<Desc>, k: nat)
    requires k < |ring|
    ensures OnRing(ring, ring[k].block) >= 1
  {
    if k > 0 { OnRingIn(ring[1..], k - 1); }
  }

  lemma {:induction false} OnRingTwice(ring: seq<Desc>, j: nat, k: nat)
    requires j < k < |ring| && ring[j].block == ring[k].block
    ensures OnRing(ring, ring[j].block) >= 2
  {
    if j == 0 { OnRingIn(ring[1..], k - 1); } else { OnRingTwice(ring[1..], j - 1, k - 1); }
  }

  // The pool is as large as a ring, so a ring without some block has room for one.
  lemma RingHasRoom(ring: seq<Desc>, b: nat)
    requires b < BLOCKS && OnRing(ring, b) == 0
    requires forall k :: 0 <= k < |ring| ==> ring[k].block < BLOCKS
    requires forall c :: 0 <= c < BLOCKS ==> OnRing(ring, c) <= 1
    ensures |ring| < BLOCKS
  {
    var ids := seq(|ring|, k requires 0 <= k < |ring| => ring[k].block) + [b];
    forall j, k | 0 <= j < k < |ids| ensures ids[j] != ids[k] {
      if k == |ring| {
        OnRingIn(ring, j);
      } else if ring[j].block == ring[k].block {
        OnRingTwice(ring, j, k);
      }
    }
    DistinctBound(ids, BLOCKS);
  }

  lemma InitRefs(s: State)
    requires Init(s)
    ensures RefInv(s) && ReserveInv(s)
  {}

  // Steps that move no reference.
  ghost predicate SameHolders(s: State, t: State) {
    && t.pool == s.pool
    && (t.reader == s.reader || (!s.reader.Publishing? && !t.reader.Publishing?))
    && SameWriterHold(s.writer, t.writer) && SameDispatcherHold(s.dispatcher, t.dispatcher)
  }

  predicate SameWriterHold(w: Writer, v: Writer) {
    || v == w
    || (!w.Parked? && !v.Parked? && v.d == w.d && (v.Writing? ==> v.offset <= v.d.len))
  }

  predicate SameDispatcherHold(d: Dispatcher, e: Dispatcher) {
    || e == d
    || (!HandlesBlock(d) && !HandlesBlock(e) && (e.Popping? ==> e.left == 4))
    || (HandlesBlock(d) && HandlesBlock(e) && e.d == d.d)
  }

  lemma FrameKeepsRefs(s: State, t: State)
    requires RefInv(s) && SameHolders(s, t)
    ensures RefInv(t)
  {}

  lemma CutKeepsRefs(s: State, step: Step)
    requires RefInv(s) && CanCut(s, step)
    ensures RefInv(DoCut(s, step))
  {
    var t := DoCut(s, step);
    if step.Claim? {
      var b := step.b;
      assert s.pool.refs[b] == Holders(s, b);
      SubsetSize({b}, FreeBlocks(s.pool.refs));
      forall c | 0 <= c < |t.pool.refs| ensures t.pool.refs[c] == Holders(t, c) {
        assert s.pool.refs[c] == Holders(s, c);
      }
    } else {
      FrameKeepsRefs(s, t);
    }
  }

  lemma PushRawKeepsRefs(s: State)
    requires RefInv(s) && CanPublish(s, PushRaw)
    ensures RefInv(DoPublish(s, PushRaw))
  {
    var t := DoPublish(s, PushRaw);
    OnRingPush(s.pool.raw, s.reader.d);
    forall c | 0 <= c < |t.pool.refs| ensures t.pool.refs[c] == Holders(t, c) {
      assert s.pool.refs[c] == Holders(s, c);
    }
  }

  lemma PushDisplayKeepsRefs(s: State)
    requires RefInv(s) && CanPublish(s, PushDisplay)
    ensures RefInv(DoPublish(s, PushDisplay))
  {
    var t := DoPublish(s, PushDisplay);
    OnRingPush(s.pool.display, s.reader.d);
    forall c | 0 <= c < |t.pool.refs| ensures t.pool.refs[c] == Holders(t, c) {
      assert s.pool.refs[c] == Holders(s, c);
    }
  }

  lemma PublishKeepsRefs(s: State, step: Step)
    requires RefInv(s) && CanPublish(s, step)
    ensures RefInv(DoPublish(s, step))
  {
    if step.PushRaw? { PushRawKeepsRefs(s); }
    else if step.PushDisplay? { PushDisplayKeepsRefs(s); }
    else {
      var t := DoPublish(s, step);
      forall c | 0 <= c < |t.pool.refs| ensures t.pool.refs[c] == Holders(t, c) {
        assert s.pool.refs[c] == Holders(s, c);
      }
    }
  }

  lemma PopKeepsRefs(s: State, step: Step)
    requires RefInv(s) && CanPop(s, step)
    ensures RefInv(DoPop(s, step))
  {}

  // Formatting keeps the block in hand, or, on the refusal branch, defers it.
  lemma FormatMoves(s: State, step: Step)
    requires CanFormat(s, step)
    ensures
      var t := DoFormat(s, step);
      || SameHolders(s, t)
      || (t == s.(show := t.show, pool := s.pool.(deferred := Some(s.dispatcher.d)), dispatcher := Disarming)
          && HandlesBlock(s.dispatcher))
  {}

  lemma DeferKeepsRefs(s: State, t: State)
    requires RefInv(s) && HandlesBlock(s.dispatcher)
    requires t == s.(show := t.show, pool := s.pool.(deferred := Some(s.dispatcher.d)), dispatcher := Disarming)
    ensures RefInv(t)
  {}

  lemma FormatKeepsRefs(s: State, step: Step)
    requires RefInv(s) && CanFormat(s, step)
    ensures RefInv(DoFormat(s, step))
  {
    var t := DoFormat(s, step);
    FormatMoves(s, step);
    if SameHolders(s, t) { FrameKeepsRefs(s, t); } else { DeferKeepsRefs(s, t); }
  }

  lemma BoundKeepsRefs(s: State, step: Step)
    requires RefInv(s) && CanBound(s, step)
    ensures RefInv(DoBound(s, step))
  {
    var t := DoBound(s, step);
    forall c | 0 <= c < |t.pool.refs| ensures t.pool.refs[c] == Holders(t, c) {
      assert s.pool.refs[c] == Holders(s, c);
    }
  }

  lemma WriteRingKeepsRefs(s: State, step: Step)
    requires RefInv(s) && CanWrite(s, step) && (step.PopRaw? || step.ReleaseRaw?)
    ensures RefInv(DoWrite(s, step))
  {}

  // Writing bytes moves no reference, nor do the writer's jobs.
  lemma WriteMovesNoRef(s: State, step: Step)
    requires BlockShape(s) && CanWrite(s, step) && !step.PopRaw? && !step.ReleaseRaw?
    ensures SameHolders(s, DoWrite(s, step))
  {}

  // The tail of rx_ingress, the kick protocol and the ABI thread move no reference.
  lemma ReturnMovesNoRef(s: State, step: Step)
    requires CanReturn(s, step)
    ensures SameHolders(s, DoReturn(s, step))
  {}

  lemma KickMovesNoRef(s: State, step: Step)
    requires CanKick(s, step)
    ensures SameHolders(s, DoKick(s, step))
  {}

  lemma AdmitMovesNoRef(s: State, step: Step)
    requires CanAdmit(s, step)
    ensures SameHolders(s, DoAdmit(s, step))
  {}

  lemma UiMovesNoRef(s: State, step: Step)
    requires CanUi(s, step)
    ensures SameHolders(s, DoUi(s, step))
  {}

  lemma StepKeepsRefs(s: State, step: Step)
    requires RefInv(s) && Can(s, step)
    ensures RefInv(Do(s, step))
  {
    hide RefInv, SameHolders;
    hide CanCut, CanPublish, CanReturn, CanPop, CanFormat, CanKick, CanBound, CanWrite, CanAdmit, CanUi;
    hide DoCut, DoPublish, DoReturn, DoPop, DoFormat, DoKick, DoBound, DoWrite, DoAdmit, DoUi;
    if CanCut(s, step) {
      CutKeepsRefs(s, step);
    } else if CanPublish(s, step) {
      PublishKeepsRefs(s, step);
    } else if CanReturn(s, step) {
      ReturnMovesNoRef(s, step);
      FrameKeepsRefs(s, DoReturn(s, step));
    } else if CanPop(s, step) {
      PopKeepsRefs(s, step);
    } else if CanFormat(s, step) {
      FormatKeepsRefs(s, step);
    } else if CanKick(s, step) {
      KickMovesNoRef(s, step);
      FrameKeepsRefs(s, DoKick(s, step));
    } else if CanBound(s, step) {
      BoundKeepsRefs(s, step);
    } else if CanWrite(s, step) {
      if step.PopRaw? || step.ReleaseRaw? {
        WriteRingKeepsRefs(s, step);
      } else {
        assert BlockShape(s) by { RefShape(s); }
        WriteMovesNoRef(s, step);
        FrameKeepsRefs(s, DoWrite(s, step));
      }
    } else if CanAdmit(s, step) {
      AdmitMovesNoRef(s, step);
      FrameKeepsRefs(s, DoAdmit(s, step));
    } else {
      UiMovesNoRef(s, step);
      FrameKeepsRefs(s, DoUi(s, step));
    }
  }

  // ---- what the counts give -----------------------------------------------------

  predicate Counted(refs: seq<nat>, d: Desc) { d.block < |refs| && refs[d.block] > 0 }

  // What the code asserts, or silently relies on, at a step.
  predicate AssertionsPass(s: State, step: Step) {
    && (step.PushRaw? ==> |s.pool.raw| < BLOCKS)
    && (step.PushDisplay? ==> |s.pool.display| < BLOCKS)
    && (step.ReleaseBlock? ==> HandlesBlock(s.dispatcher) && Counted(s.pool.refs, s.dispatcher.d))
    && (step.RetireDeferred? ==> s.pool.deferred.Some? && Counted(s.pool.refs, s.pool.deferred.value))
    && (step.ReleaseRaw? ==> !s.writer.Parked? && Counted(s.pool.refs, s.writer.d))
    && (step.Claim? ==> Holders(s, step.b) == 0)
  }

  lemma AssertionsHoldAt(s: State, step: Step)
    requires RefInv(s) && Can(s, step)
    ensures AssertionsPass(s, step)
  {
    match step
    case PushRaw => RingHasRoom(s.pool.raw, s.reader.d.block);
    case PushDisplay => RingHasRoom(s.pool.display, s.reader.d.block);
    case _ =>
  }

  lemma CutWritesOnClaim(s: State, step: Step)
    requires !step.Claim? && CanCut(s, step)
    ensures DoCut(s, step).pool.mem == s.pool.mem
  {}

  lemma PublishWritesNoBlock(s: State, step: Step)
    ensures CanPublish(s, step) ==> DoPublish(s, step).pool.mem == s.pool.mem
    ensures CanReturn(s, step) ==> DoReturn(s, step).pool.mem == s.pool.mem
  {}

  lemma DispatcherWritesNoBlock(s: State, step: Step)
    ensures CanPop(s, step) ==> DoPop(s, step).pool.mem == s.pool.mem
    ensures CanFormat(s, step) ==> DoFormat(s, step).pool.mem == s.pool.mem
    ensures CanKick(s, step) ==> DoKick(s, step).pool.mem == s.pool.mem
    ensures CanBound(s, step) ==> DoBound(s, step).pool.mem == s.pool.mem
  {}

  lemma WriterWritesNoBlock(s: State, step: Step)
    ensures CanWrite(s, step) ==> DoWrite(s, step).pool.mem == s.pool.mem
    ensures CanAdmit(s, step) ==> DoAdmit(s, step).pool.mem == s.pool.mem
    ensures CanUi(s, step) ==> DoUi(s, step).pool.mem == s.pool.mem
  {}

  lemma OnlyClaimWrites(s: State, step: Step)
    requires Can(s, step) && !step.Claim?
    ensures Do(s, step).pool.mem == s.pool.mem
  {
    if CanCut(s, step) { CutWritesOnClaim(s, step); }
    PublishWritesNoBlock(s, step);
    DispatcherWritesNoBlock(s, step);
    WriterWritesNoBlock(s, step);
  }

  lemma PayloadStableAt(s: State, step: Step, b: nat)
    requires RefInv(s) && Can(s, step) && b < BLOCKS && Holders(s, b) > 0
    ensures |Do(s, step).pool.mem| == |s.pool.mem| && Do(s, step).pool.mem[b] == s.pool.mem[b]
  {
    if step.Claim? { assert Holders(s, step.b) == 0; } else { OnlyClaimWrites(s, step); }
  }

  // ---- the file lane's reserve -------------------------------------------------------

  predicate FileBacked(ring: seq<Desc>, b: nat) {
    exists k :: 0 <= k < |ring| && ring[k].block == b && !ring[k].unlogged
  }

  // File-backed blocks the display side keeps out of the pool.
  predicate DisplayKeeps(s: State, b: nat) {
    || FileBacked(s.pool.display, b)
    || (s.pool.deferred.Some? && s.pool.deferred.value.block == b && !s.pool.deferred.value.unlogged)
    || (HandlesBlock(s.dispatcher) && s.dispatcher.d.block == b && !s.dispatcher.d.unlogged)
    || (s.reader.Publishing? && s.reader.displayOk && s.reader.d.block == b && !s.reader.d.unlogged)
  }

  function Kept(s: State): set<nat> { set b | 0 <= b < BLOCKS && DisplayKeeps(s, b) }

  predicate ReserveInv(s: State) { |Kept(s)| <= BLOCKS - RESERVE }

  lemma SubsetSize(a: set<nat>, b: set<nat>)
    requires a <= b
    ensures |a| <= |b|
  {
    assert b == a + (b - a);
  }

  lemma {:induction false} IdSetSize(n: nat)
    ensures |IdSet(n)| == n
  {
    if n > 0 { IdSetSize(n - 1); }
  }

  lemma KeptIsUsed(s: State)
    requires RefInv(s)
    ensures Kept(s) !! FreeBlocks(s.pool.refs)
  {
    forall b | b in Kept(s) ensures b !in FreeBlocks(s.pool.refs) {
      assert s.pool.refs[b] == Holders(s, b);
      if FileBacked(s.pool.display, b) {
        var k :| 0 <= k < |s.pool.display| && s.pool.display[k].block == b && !s.pool.display[k].unlogged;
        OnRingIn(s.pool.display, k);
      }
    }
  }

  // What the display side keeps goes down, or moves between its own places.
  ghost predicate DisplaySideShrinks(s: State, t: State) {
    && (t.pool.display == s.pool.display || (s.pool.display != [] && t.pool.display == s.pool.display[1..])
        || (s.reader.Publishing? && s.reader.displayOk && t.pool.display == s.pool.display + [s.reader.d]))
    && (t.pool.deferred.Some? ==>
          || t.pool.deferred == s.pool.deferred
          || (HandlesBlock(s.dispatcher) && t.pool.deferred.value == s.dispatcher.d))
    && (HandlesBlock(t.dispatcher) ==>
          || (HandlesBlock(s.dispatcher) && t.dispatcher.d == s.dispatcher.d)
          || s.pool.deferred == Some(t.dispatcher.d)
          || (s.pool.display != [] && t.dispatcher.d == s.pool.display[0]))
    && (t.reader.Publishing? && t.reader.displayOk && !t.reader.d.unlogged ==>
          s.reader.Publishing? && s.reader.displayOk && s.reader.d == t.reader.d)
  }

  lemma ShrinkKept(s: State, t: State, b: nat)
    requires DisplaySideShrinks(s, t) && DisplayKeeps(t, b)
    ensures DisplayKeeps(s, b)
  {}

  predicate ClaimsForBoth(s: State, step: Step) {
    step.Claim? && CanCut(s, step) && DoCut(s, step).reader.displayOk && s.reader.i.fileLane
  }

  lemma CutShrinks(s: State, step: Step)
    requires CanCut(s, step) && !ClaimsForBoth(s, step)
    ensures DisplaySideShrinks(s, DoCut(s, step))
  {}

  lemma PublishShrinks(s: State, step: Step)
    requires CanPublish(s, step)
    ensures DisplaySideShrinks(s, DoPublish(s, step))
  {}

  lemma PopShrinks(s: State, step: Step)
    requires CanPop(s, step)
    ensures DisplaySideShrinks(s, DoPop(s, step))
  {}

  lemma FormatShrinks(s: State, step: Step)
    requires CanFormat(s, step)
    ensures DisplaySideShrinks(s, DoFormat(s, step))
  {}

  lemma SameHoldersShrink(s: State, t: State)
    requires SameHolders(s, t)
    ensures DisplaySideShrinks(s, t)
  {}

  lemma BoundShrinks(s: State, step: Step)
    requires CanBound(s, step)
    ensures DisplaySideShrinks(s, DoBound(s, step))
  {}

  lemma WriteShrinks(s: State, step: Step)
    requires CanWrite(s, step)
    ensures DisplaySideShrinks(s, DoWrite(s, step))
  {}

  lemma StepShrinks(s: State, step: Step)
    requires Can(s, step) && !ClaimsForBoth(s, step)
    ensures DisplaySideShrinks(s, Do(s, step))
  {
    hide DisplaySideShrinks, ClaimsForBoth, SameHolders;
    hide CanCut, CanPublish, CanReturn, CanPop, CanFormat, CanKick, CanBound, CanWrite, CanAdmit, CanUi;
    hide DoCut, DoPublish, DoReturn, DoPop, DoFormat, DoKick, DoBound, DoWrite, DoAdmit, DoUi;
    if CanCut(s, step) { CutShrinks(s, step); }
    else if CanPublish(s, step) { PublishShrinks(s, step); }
    else if CanReturn(s, step) {
      ReturnMovesNoRef(s, step);
      SameHoldersShrink(s, DoReturn(s, step));
    }
    else if CanPop(s, step) { PopShrinks(s, step); }
    else if CanFormat(s, step) { FormatShrinks(s, step); }
    else if CanKick(s, step) {
      KickMovesNoRef(s, step);
      SameHoldersShrink(s, DoKick(s, step));
    }
    else if CanBound(s, step) { BoundShrinks(s, step); }
    else if CanWrite(s, step) { WriteShrinks(s, step); }
    else if CanAdmit(s, step) {
      AdmitMovesNoRef(s, step);
      SameHoldersShrink(s, DoAdmit(s, step));
    } else {
      UiMovesNoRef(s, step);
      SameHoldersShrink(s, DoUi(s, step));
    }
  }

  lemma StepKeepsReserve(s: State, step: Step)
    requires RefInv(s) && ReserveInv(s) && Can(s, step)
    ensures ReserveInv(Do(s, step))
  {
    var t := Do(s, step);
    if ClaimsForBoth(s, step) {
      StepKeepsRefs(s, step);
      KeptIsUsed(t);
      assert FreeBlocks(s.pool.refs) == FreeBlocks(t.pool.refs) + {step.b};
      SubsetSize(Kept(t) + FreeBlocks(t.pool.refs), IdSet(BLOCKS));
      IdSetSize(BLOCKS);
    } else {
      StepShrinks(s, step);
      forall b | b in Kept(t) ensures b in Kept(s) { ShrinkKept(s, t, b); }
      SubsetSize(Kept(t), Kept(s));
    }
  }

  function WithWriterOnly(s: State): set<nat> {
    set b | 0 <= b < BLOCKS && DisplaySideHolds(s, b) == 0 && FileSideHolds(s, b) > 0
  }

  lemma UsedOutsideReader(s: State, b: nat)
    requires RefInv(s) && FreeBlocks(s.pool.refs) == {} && s.reader.Cutting? && b < BLOCKS
    ensures DisplaySideHolds(s, b) > 0 || FileSideHolds(s, b) > 0
  {
    assert s.pool.refs[b] == Holders(s, b);
    assert b !in FreeBlocks(s.pool.refs);
  }

  lemma ReserveAt(s: State)
    requires RefInv(s) && ReserveInv(s)
    requires FreeBlocks(s.pool.refs) == {} && s.reader.Cutting?
    requires forall b :: 0 <= b < BLOCKS && DisplaySideHolds(s, b) > 0 ==> DisplayKeeps(s, b)
    ensures |WithWriterOnly(s)| >= RESERVE
  {
    hide DisplayKeeps, DisplaySideHolds, FileSideHolds, RingsDistinct, OneInHand;
    forall b | b in IdSet(BLOCKS) ensures b in Kept(s) + WithWriterOnly(s) {
      UsedOutsideReader(s, b);
      if DisplaySideHolds(s, b) > 0 { assert DisplayKeeps(s, b); }
    }
    SubsetSize(IdSet(BLOCKS), Kept(s) + WithWriterOnly(s));
    IdSetSize(BLOCKS);
  }

  // ---- every reachable state -----------------------------------------------------------

  lemma {:induction false} RunKeepsRefs(states: seq<State>, steps: seq<Step>, k: nat)
    requires Run(states, steps) && Init(states[0]) && k < |states|
    ensures RefInv(states[k]) && ReserveInv(states[k])
  {
    hide *;
    RunShape(states, steps);
    if k == 0 {
      InitRefs(states[0]);
    } else {
      RunStep(states, steps, k - 1);
      RunKeepsRefs(states, steps, k - 1);
      StepKeepsRefs(states[k - 1], steps[k - 1]);
      StepKeepsReserve(states[k - 1], steps[k - 1]);
    }
  }

  // Reference counting over all runs: a count is the number of holders, and a block is free
  // exactly when it has none.
  lemma CountsAreHolders(states: seq<State>, steps: seq<Step>, k: nat)
    requires Run(states, steps) && Init(states[0]) && k < |states|
    ensures |states[k].pool.refs| == BLOCKS
    ensures forall b :: 0 <= b < BLOCKS ==> states[k].pool.refs[b] == Holders(states[k], b)
    ensures forall b :: 0 <= b < BLOCKS ==> (b in FreeBlocks(states[k].pool.refs) <==> Holders(states[k], b) == 0)
  {
    RunKeepsRefs(states, steps, k);
  }

  // Both pushes of publish(), asserted by the code, find room; no release underflows; and a
  // block handed out by the pool was held by nobody.
  lemma AssertionsHold(states: seq<State>, steps: seq<Step>, k: nat)
    requires Run(states, steps) && Init(states[0]) && k < |steps|
    ensures AssertionsPass(states[k], steps[k])
  {
    RunKeepsRefs(states, steps, k);
    RunStep(states, steps, k);
    AssertionsHoldAt(states[k], steps[k]);
  }

  // No payload is overwritten under a reader: as long as any ring, slot or thread holds a
  // block, no step of any thread changes its bytes.
  lemma PayloadStable(states: seq<State>, steps: seq<Step>, k: nat, b: nat)
    requires Run(states, steps) && Init(states[0]) && k < |steps| && b < BLOCKS
    requires Holders(states[k], b) > 0
    ensures |states[k].pool.mem| == |states[k + 1].pool.mem| == BLOCKS
    ensures states[k + 1].pool.mem[b] == states[k].pool.mem[b]
  {
    RunKeepsRefs(states, steps, k);
    RunStep(states, steps, k);
    PayloadStableAt(states[k], steps[k], b);
  }

  // The display side never keeps more than 32 file-backed blocks; and a file-lane claim that
  // finds the pool empty while no display-only block is out has at least 96 blocks waiting on
  // the writer alone: the display cannot have starved the file.
  lemma FileLaneKeepsItsReserve(states: seq<State>, steps: seq<Step>, k: nat)
    requires Run(states, steps) && Init(states[0]) && k < |states|
    ensures |Kept(states[k])| <= BLOCKS - RESERVE
    ensures
      var s := states[k];
      FreeBlocks(s.pool.refs) == {} && s.reader.Cutting?
      && (forall b :: 0 <= b < BLOCKS && DisplaySideHolds(s, b) > 0 ==> DisplayKeeps(s, b))
      ==> |WithWriterOnly(s)| >= RESERVE
  {
    RunKeepsRefs(states, steps, k);
    var s := states[k];
    if FreeBlocks(s.pool.refs) == {} && s.reader.Cutting?
       && forall b :: 0 <= b < BLOCKS && DisplaySideHolds(s, b) > 0 ==> DisplayKeeps(s, b) {
      ReserveAt(s);
    }
  }
}
