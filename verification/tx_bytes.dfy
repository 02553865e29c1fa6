// The bytes of the transmit path: a block keeps what was copied into it for as long as anything
// refers to it, so the backend is given exactly the bytes that were accepted.
module TxBytes {
  import opened Bytes
  import opened SerialAo
  import SerialSystem
  import opened TxPath
  import opened TxSends

  predicate Holds(mem: seq<seq<byte>>, tx: Tx) {
    tx.block < BLOCKS && tx.len == |tx.data| && Content(mem, tx.block, tx.len) == tx.data
  }

  predicate AllHold(mem: seq<seq<byte>>, txs: seq<Tx>) { forall k :: 0 <= k < |txs| ==> Holds(mem, txs[k]) }

  predicate ConfigHolds(mem: seq<seq<byte>>, c: Config) {
    c.block.Some? ==> c.block.value < BLOCKS && c.len == |c.data| && Content(mem, c.block.value, c.len) == c.data
  }

  predicate MemShape(mem: seq<seq<byte>>) {
    |mem| == BLOCKS && forall b :: 0 <= b < BLOCKS ==> |mem[b]| == BLOCK_BYTES
  }

  // Every payload and every template is still in its block.
  predicate MemInv(t: Lane) {
    && MemShape(t.mem)
    && (t.caller.Sending? ==> Holds(t.mem, t.caller.tx))
    && (t.caller.Configuring? ==> ConfigHolds(t.mem, t.caller.config))
    && AllHold(t.mem, t.sends) && AllHold(t.mem, t.ring)
    && (forall k :: 0 <= k < |t.configs| ==> ConfigHolds(t.mem, t.configs[k]))
    && (t.template.Some? ==>
          && t.template.value < BLOCKS && t.templateLen == |t.templateData|
          && Content(t.mem, t.template.value, t.templateLen) == t.templateData)
    && (t.hand.Some? ==> Holds(t.mem, t.hand.value))
    && (!t.worker.Idle? ==> Holds(t.mem, t.worker.tx))
  }

  predicate SentInv(t: Lane) {
    |t.sent| == |t.written| && forall i :: 0 <= i < |t.sent| ==> t.sent[i] == t.written[i].data
  }

  // ---- a free block is nobody's ---------------------------------------------------------

  lemma {:induction false} NotInTxs(txs: seq<Tx>, b: nat)
    requires InTxs(txs, b) == 0
    ensures forall k :: 0 <= k < |txs| ==> txs[k].block != b
  {
    if txs != [] {
      NotInTxs(txs[1..], b);
      assert txs == [txs[0]] + txs[1..];
    }
  }

  lemma {:induction false} NotInConfigs(configs: seq<Config>, b: nat)
    requires InConfigs(configs, b) == 0
    ensures forall k :: 0 <= k < |configs| ==> configs[k].block != Some(b)
  {
    if configs != [] {
      NotInConfigs(configs[1..], b);
      assert configs == [configs[0]] + configs[1..];
    }
  }

  predicate Unused(t: Lane, b: nat) {
    && (forall k :: 0 <= k < |t.sends| ==> t.sends[k].block != b)
    && (forall k :: 0 <= k < |t.ring| ==> t.ring[k].block != b)
    && (forall k :: 0 <= k < |t.configs| ==> t.configs[k].block != Some(b))
    && t.template != Some(b) && (t.hand.Some? ==> t.hand.value.block != b)
    && (!t.worker.Idle? ==> t.worker.tx.block != b)
  }

  lemma FreeIsUnused(t: Lane, b: nat)
    requires EachOnce(t) && b in t.free
    ensures b < BLOCKS && Unused(t, b)
  {
    assert Places(t, b) == One(b < BLOCKS);
    NotInTxs(t.sends, b);
    NotInTxs(t.ring, b);
    NotInConfigs(t.configs, b);
  }

  lemma FillShape(t: Lane, b: nat, data: seq<byte>)
    requires MemShape(t.mem) && b < BLOCKS && |data| <= BLOCK_BYTES
    ensures MemShape(Fill(t, b, data).mem) && Content(Fill(t, b, data).mem, b, |data|) == data
    ensures forall c: nat, n: nat :: c != b ==> Content(Fill(t, b, data).mem, c, n) == Content(t.mem, c, n)
  {}

  // Filling a free block disturbs nothing.
  lemma FillKeepsMem(t: Lane, b: nat, data: seq<byte>)
    requires MemInv(t) && t.caller.Free? && b < BLOCKS && Unused(t, b) && |data| <= BLOCK_BYTES
    ensures MemInv(Fill(t, b, data)) && Content(Fill(t, b, data).mem, b, |data|) == data
  {
    hide Content, Fill;
    FillShape(t, b, data);
    FillLeaves(t, b, data);
  }

  // The same while the caller is inside a call of its own.
  lemma FillBesideCaller(t: Lane, b: nat, data: seq<byte>)
    requires MemInv(t) && b < BLOCKS && Unused(t, b) && |data| <= BLOCK_BYTES
    requires t.caller.Sending? ==> t.caller.tx.block != b
    requires t.caller.Configuring? ==> t.caller.config.block != Some(b)
    ensures MemInv(Fill(t, b, data)) && Content(Fill(t, b, data).mem, b, |data|) == data
  {
    hide Content, Fill;
    FillShape(t, b, data);
    FillLeaves(t, b, data);
  }

  lemma FreeIsNotCallers(t: Lane, b: nat)
    requires EachOnce(t) && b in t.free
    ensures t.caller.Sending? ==> t.caller.tx.block != b
    ensures t.caller.Configuring? ==> t.caller.config.block != Some(b)
  {
    assert Places(t, b) == One(b < BLOCKS);
  }

  // ---- one step -------------------------------------------------------------------------------

  lemma StartKeepsMem(s: State, step: Step)
    requires BlocksInv(s.tx) && MemInv(s.tx) && CanTx(s, step) && (step.SendStart? || step.ConfigStart?)
    ensures MemInv(DoTx(s, step))
  {
    hide EachOnce, Content, Fill, MemShape;
    if step.SendStart? || step.interval != 0 {
      FreeIsUnused(s.tx, step.b);
      FillKeepsMem(s.tx, step.b, step.data);
      FillLeaves(s.tx, step.b, step.data);
    }
  }

  lemma AutoKeepsMem(s: State, b: nat)
    requires BlocksInv(s.tx) && MemInv(s.tx) && CanTx(s, AutoAction(b))
    ensures MemInv(DoTx(s, AutoAction(b)))
  {
    hide EachOnce, Fill, MemShape;
    var t := s.tx;
    var copy := Content(t.mem, t.template.value, t.templateLen);
    CopyFits(t);
    FreeIsUnused(t, b);
    FreeIsNotCallers(t, b);
    FillBesideCaller(t, b, copy);
    FillLeaves(t, b, copy);
  }

  lemma CopyFits(t: Lane)
    requires MemShape(t.mem) && t.template.Some? && t.template.value < BLOCKS
    ensures |Content(t.mem, t.template.value, t.templateLen)| <= BLOCK_BYTES
  {}

  lemma MoveKeepsMem(s: State, step: Step)
    requires MemInv(s.tx) && CanTx(s, step)
    requires !step.SendStart? && !step.ConfigStart? && !step.AutoAction? && !step.ConfigAction?
    ensures MemInv(DoTx(s, step))
  {
    hide BlocksInv, Content, Fill, MemShape, Holds, ConfigHolds;
  }

  lemma ConfigKeepsMem(s: State)
    requires MemInv(s.tx) && CanTx(s, ConfigAction)
    ensures MemInv(DoTx(s, ConfigAction))
  {
    hide Content, Fill, MemShape, Holds;
    assert ConfigHolds(s.tx.mem, s.tx.configs[0]);
  }

  lemma TxStepKeepsMem(s: State, step: Step)
    requires BlocksInv(s.tx) && MemInv(s.tx) && CanTx(s, step)
    ensures MemInv(DoTx(s, step))
  {
    hide BlocksInv, MemInv, DoTx, CanTx;
    if step.SendStart? || step.ConfigStart? { StartKeepsMem(s, step); }
    else if step.AutoAction? { AutoKeepsMem(s, step.b); }
    else if step.ConfigAction? { ConfigKeepsMem(s); }
    else { MoveKeepsMem(s, step); }
  }

  lemma JoinKeepsMem(t: Lane)
    requires MemInv(t)
    ensures MemInv(Joined(t))
  {}

  lemma TxStepKeepsSent(s: State, step: Step)
    requires MemInv(s.tx) && SentInv(s.tx) && CanTx(s, step)
    ensures SentInv(DoTx(s, step))
  {
    hide Content, MemShape, AllHold, ConfigHolds;
  }

  lemma StepKeepsMem(s: State, step: Step)
    requires Inv(s) && MemInv(s.tx) && SentInv(s.tx) && Can(s, step)
    ensures MemInv(Do(s, step).tx) && SentInv(Do(s, step).tx)
  {
    hide BlocksInv, FenceInv, Rest, MemInv, DoTx, CanTx, SerialSystem.Can, SerialSystem.Do;
    if step.Serial? {
      JoinKeepsMem(s.tx);
    } else {
      TxStepKeepsMem(s, step);
      TxStepKeepsSent(s, step);
    }
  }

  lemma InitMem(s: State)
    requires Init(s)
    ensures MemInv(s.tx) && SentInv(s.tx)
  {}

  lemma {:induction false} RunKeepsMem(states: seq<State>, steps: seq<Step>, k: nat)
    requires IsRun(states, steps) && Init(states[0]) && k < |states|
    ensures MemInv(states[k].tx) && SentInv(states[k].tx)
  {
    hide *;
    RunShape(states, steps);
    if k == 0 {
      InitMem(states[0]);
    } else {
      RunStep(states, steps, k - 1);
      RunKeepsInv(states, steps, k - 1);
      RunKeepsMem(states, steps, k - 1);
      StepKeepsMem(states[k - 1], steps[k - 1]);
    }
  }

  // ---- over all runs ----------------------------------------------------------------------------

  // The backend was given, write by write, exactly the bytes each payload was made of; and while
  // a write is going on its block keeps them.
  lemma BackendGetsTheBytes(states: seq<State>, steps: seq<Step>, k: nat)
    requires IsRun(states, steps) && Init(states[0]) && k < |states|
    ensures
      var t := states[k].tx;
      && |t.sent| == |t.written| && (forall i :: 0 <= i < |t.sent| ==> t.sent[i] == t.written[i].data)
      && (t.worker.Writing? ==> Content(t.mem, t.worker.tx.block, t.worker.tx.len) == t.worker.tx.data)
      && (t.template.Some? ==> Content(t.mem, t.template.value, t.templateLen) == t.templateData)
  {
    RunKeepsMem(states, steps, k);
  }
}
