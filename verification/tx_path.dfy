// The transmit path: 32 blocks that travel from the pool through the caller, the send and
// template events, the Dispatcher, the job ring and the write worker, fenced by sessions.
module TxPath {
  import opened Bytes
  import opened SerialAo
  import opened SerialSystem
  import SessionWriter

  const BLOCKS: nat := 32            // kTxBlockCount
  const BLOCK_BYTES: nat := 4096     // kTxBlockBytes

  // TxDescriptor and Job. `session` and `data` are history: the open generation when it was
  // stamped, and the bytes it was made of.
  datatype Tx = Tx(block: nat, len: nat, gen: nat, autoSend: bool, session: nat, data: seq<byte>)

  // AutoTemplateDescriptor; interval 0 disables and carries no block. `data` is history.
  datatype Config = Config(block: Option<nat>, len: nat, interval: nat, data: seq<byte>)

  datatype Caller = Free | Sending(tx: Tx) | Configuring(config: Config)

  // GenMatched and Writing are the two checks of the worker before owner_write.
  datatype Worker = Idle | Popped(tx: Tx) | GenMatched(tx: Tx) | Writing(tx: Tx) | Releasing(tx: Tx)

  // `mem` is the block pool's storage. `enqueued` and `popped` count the session's jobs; the ring stores them modulo 2^32.
  // The fields from `stranded` on are history: blocks of jobs that no pop will ever return, the user
  // payloads accepted, all payloads given to the backend and the bytes it found in their blocks,
  // the template requests accepted, and the bytes of the template.
  datatype Lane = Lane(free: set<nat>, caller: Caller, sends: seq<Tx>, configs: seq<Config>,
                      template: Option<nat>, templateLen: nat, hand: Option<Tx>, ring: seq<Tx>, worker: Worker,
                      enqueued: nat, popped: nat, mem: seq<seq<byte>>, stranded: set<nat>, accepted: seq<Tx>,
                      written: seq<Tx>, sent: seq<seq<byte>>, requested: seq<Config>, templateData: seq<byte>)

  datatype State = TxState(core: SerialSystem.State, tx: Lane)

  datatype Step =
    // ABI caller
    | SendStart(b: nat, data: seq<byte>)
    | SendSubmit(accepted: bool)
    | ConfigStart(b: nat, data: seq<byte>, interval: nat)
    | ConfigSubmit(accepted: bool)
    // Dispatcher
    | UserAction
    | AutoAction(b: nat)
    | HandEnqueue
    | ConfigAction
    // worker
    | WorkerPop
    | WorkerLoadGen
    | WorkerLoadPort
    | WorkerWritten
    | WorkerRelease
    // the port lifecycle
    | Serial(step: SerialSystem.Step)

  // try_pop's own test of the two stored positions.
  predicate PopFails(t: Lane) {
    t.ring == [] || SessionWriter.PopRefuses(t.enqueued % U32, t.popped % U32)
  }

  predicate CanTx(s: State, step: Step) {
    match step
    case SendStart(b, data) =>
      s.tx.caller.Free? && s.core.port.published == Open && b in s.tx.free && 0 < |data| <= BLOCK_BYTES
    case SendSubmit(_) => s.tx.caller.Sending?
    case ConfigStart(b, data, interval) =>
      s.tx.caller.Free? && |data| <= BLOCK_BYTES && (interval != 0 ==> b in s.tx.free)
    case ConfigSubmit(_) => s.tx.caller.Configuring?
    case UserAction => s.tx.hand.None? && s.tx.sends != []
    case AutoAction(b) =>
      s.tx.hand.None? && s.core.port.published == Open && s.tx.template.Some? && s.tx.templateLen != 0 && b in s.tx.free
    case HandEnqueue => s.tx.hand.Some?
    case ConfigAction => s.tx.hand.None? && s.tx.configs != []
    case WorkerPop => s.core.port.live && s.tx.worker.Idle? && !PopFails(s.tx)
    case WorkerLoadGen => s.tx.worker.Popped?
    case WorkerLoadPort => s.tx.worker.GenMatched?
    case WorkerWritten => s.tx.worker.Writing?
    case WorkerRelease => s.tx.worker.Releasing?
    case Serial(_) => false
  }

  predicate Can(s: State, step: Step) {
    if step.Serial? then SerialSystem.Can(s.core, step.step) && (step.step.Dispatch? ==> s.tx.hand.None?)
    else CanTx(s, step)
  }

  function Stamp(p: Port, b: nat, data: seq<byte>, autoSend: bool): Tx {
    Tx(b, |data|, p.generation, autoSend, p.openGeneration, data)
  }

  // The first bytes of a block.
  function Content(mem: seq<seq<byte>>, b: nat, len: nat): seq<byte> {
    if b < |mem| && len <= |mem[b]| then mem[b][..len] else []
  }

  function Fill(t: Lane, b: nat, data: seq<byte>): Lane {
    if b < |t.mem| then t.(mem := t.mem[b := Overwrite(t.mem[b], data)]) else t
  }

  // sink_enqueue_write: the ring takes the job while the worker runs and a slot is free.
  function Enqueue(live: bool, t: Lane, tx: Tx): Lane {
    if live && |t.ring| < SessionWriter.MAX_JOBS then t.(ring := t.ring + [tx], enqueued := t.enqueued + 1)
    else t.(free := t.free + {tx.block})
  }

  predicate ValidConfig(c: Config) { c.interval != 0 ==> c.block.Some? && 0 < c.len <= BLOCK_BYTES }

  function SetOf(o: Option<nat>): set<nat> { if o.Some? then {o.value} else {} }

  function ApplyConfig(t: Lane, c: Config): Lane {
    if !ValidConfig(c) then t.(free := t.free + SetOf(c.block))
    else if c.interval == 0
    then t.(free := t.free + SetOf(t.template), template := None, templateLen := 0, templateData := [])
    else t.(free := t.free + SetOf(t.template), template := c.block, templateLen := c.len, templateData := c.data)
  }

  function DoTx(s: State, step: Step): Lane
    requires CanTx(s, step)
  {
    var p, t := s.core.port, s.tx;
    match step
    case SendStart(b, data) => Fill(t, b, data).(free := t.free - {b}, caller := Sending(Stamp(p, b, data, false)))
    case SendSubmit(accepted) =>
      if accepted then t.(caller := Free, sends := t.sends + [t.caller.tx], accepted := t.accepted + [t.caller.tx])
      else t.(caller := Free, free := t.free + {t.caller.tx.block})
    case ConfigStart(b, data, interval) =>
      if interval == 0 then t.(caller := Configuring(Config(None, 0, 0, [])))
      else Fill(t, b, data).(free := t.free - {b}, caller := Configuring(Config(Some(b), |data|, interval, data)))
    case ConfigSubmit(accepted) =>
      if accepted
      then t.(caller := Free, configs := t.configs + [t.caller.config], requested := t.requested + [t.caller.config])
      else t.(caller := Free, free := t.free + SetOf(t.caller.config.block))
    case UserAction =>
      var tx := t.sends[0];
      if tx.gen != p.generation || p.published != Open
      then t.(sends := t.sends[1..], free := t.free + {tx.block})
      else t.(sends := t.sends[1..], hand := Some(tx))
    case AutoAction(b) =>
      var copy := Content(t.mem, t.template.value, t.templateLen);
      Fill(t, b, copy)
        .(free := t.free - {b},
          hand := Some(Tx(b, t.templateLen, p.generation, true, p.openGeneration, t.templateData)))
    case HandEnqueue => Enqueue(p.live, t.(hand := None), t.hand.value)
    case ConfigAction => ApplyConfig(t.(configs := t.configs[1..]), t.configs[0])
    case WorkerPop => t.(ring := t.ring[1..], popped := t.popped + 1, worker := Popped(t.ring[0]))
    case WorkerLoadGen =>
      t.(worker := if t.worker.tx.gen == p.generation then GenMatched(t.worker.tx) else Releasing(t.worker.tx))
    case WorkerLoadPort =>
      if p.published == Open
      then t.(worker := Writing(t.worker.tx), written := t.written + [t.worker.tx],
              sent := t.sent + [Content(t.mem, t.worker.tx.block, t.worker.tx.len)])
      else t.(worker := Releasing(t.worker.tx))
    case WorkerWritten => t.(worker := Releasing(t.worker.tx))
    case WorkerRelease => t.(worker := Idle, free := t.free + {t.worker.tx.block})
  }

  function Ids(txs: seq<Tx>): set<nat> { set t | t in txs :: t.block }

  function WorkerIds(w: Worker): set<nat> { if w.Idle? then {} else {w.tx.block} }

  // owner_close joins the worker and releases the leftover jobs as far as try_pop returns
  // them; the next session starts from zero positions.
  function Joined(t: Lane): Lane {
    var released, kept := if PopFails(t) then {} else Ids(t.ring), if PopFails(t) then Ids(t.ring) else {};
    t.(free := t.free + released + WorkerIds(t.worker), ring := [], worker := Idle,
       enqueued := 0, popped := 0, stranded := t.stranded + kept)
  }

  function Do(s: State, step: Step): State
    requires Can(s, step)
  {
    if step.Serial? then
      var core := SerialSystem.Do(s.core, step.step);
      TxState(core, if core.port.closes != s.core.port.closes then Joined(s.tx) else s.tx)
    else s.(tx := DoTx(s, step))
  }

  ghost predicate Init(s: State) {
    && SerialSystem.Init(s.core)
    && s.tx == Lane(IdSet(BLOCKS), Free, [], [], None, 0, None, [], Idle, 0, 0, s.tx.mem, {}, [], [], [], [], [])
    && |s.tx.mem| == BLOCKS && forall b :: 0 <= b < BLOCKS ==> |s.tx.mem[b]| == BLOCK_BYTES
  }

  // ---- the block partition -------------------------------------------------------------

  function One(c: bool): nat { if c then 1 else 0 }

  function InTxs(txs: seq<Tx>, b: nat): nat {
    if txs == [] then 0 else One(txs[0].block == b) + InTxs(txs[1..], b)
  }

  function InConfigs(configs: seq<Config>, b: nat): nat {
    if configs == [] then 0 else One(configs[0].block == Some(b)) + InConfigs(configs[1..], b)
  }

  function InCaller(c: Caller, b: nat): nat {
    match c
    case Free => 0
    case Sending(tx) => One(tx.block == b)
    case Configuring(config) => One(config.block == Some(b))
  }

  // In how many places block b is.
  function Places(t: Lane, b: nat): nat {
    One(b in t.free) + InCaller(t.caller, b) + InTxs(t.sends, b) + InConfigs(t.configs, b)
    + One(t.template == Some(b)) + One(t.hand.Some? && t.hand.value.block == b)
    + InTxs(t.ring, b) + One(!t.worker.Idle? && t.worker.tx.block == b)
    + One(b in t.stranded)
  }

  ghost predicate EachOnce(t: Lane) { forall b: nat :: Places(t, b) == One(b < BLOCKS) }

  lemma {:induction false} InTxsPush(txs: seq<Tx>, tx: Tx, b: nat)
    ensures InTxs(txs + [tx], b) == InTxs(txs, b) + One(tx.block == b)
  {
    if txs == [] {
      assert txs + [tx] == [tx] && [tx][1..] == [];
    } else {
      assert (txs + [tx])[1..] == txs[1..] + [tx];
      InTxsPush(txs[1..], tx, b);
    }
  }

  lemma {:induction false} InConfigsPush(configs: seq<Config>, c: Config, b: nat)
    ensures InConfigs(configs + [c], b) == InConfigs(configs, b) + One(c.block == Some(b))
  {
    if configs == [] {
      assert configs + [c] == [c] && [c][1..] == [];
    } else {
      assert (configs + [c])[1..] == configs[1..] + [c];
      InConfigsPush(configs[1..], c, b);
    }
  }

  lemma {:induction false} InTxsIds(txs: seq<Tx>, b: nat)
    ensures InTxs(txs, b) > 0 <==> b in Ids(txs)
  {
    if txs != [] {
      InTxsIds(txs[1..], b);
      assert txs == [txs[0]] + txs[1..];
    }
  }

  lemma {:induction false} InTxsAt(txs: seq<Tx>, k: nat)
    requires k < |txs|
    ensures InTxs(txs, txs[k].block) >= 1
  {
    if k > 0 { InTxsAt(txs[1..], k - 1); }
  }

  lemma {:induction false} InTxsTwice(txs: seq<Tx>, j: nat, k: nat)
    requires j < k < |txs| && txs[j].block == txs[k].block
    ensures InTxs(txs, txs[j].block) >= 2
  {
    if j == 0 { InTxsAt(txs[1..], k - 1); } else { InTxsTwice(txs[1..], j - 1, k - 1); }
  }

  // Only an enabling template carries a block.
  predicate WellConfig(c: Config) { c.block.Some? <==> c.interval != 0 }

  predicate WellConfigs(t: Lane) {
    && (t.caller.Configuring? ==> WellConfig(t.caller.config))
    && forall k :: 0 <= k < |t.configs| ==> WellConfig(t.configs[k])
  }

  lemma FillLeaves(t: Lane, b: nat, data: seq<byte>)
    ensures Fill(t, b, data) == t.(mem := Fill(t, b, data).mem)
  {}

  lemma SenderKeepsPlaces(s: State, step: Step, b: nat)
    requires CanTx(s, step) && EachOnce(s.tx) && (step.SendStart? || step.SendSubmit?)
    ensures Places(DoTx(s, step), b) == Places(s.tx, b)
  {
    hide Fill, InConfigs;
    var t := s.tx;
    if step.SendStart? { FillLeaves(t, step.b, step.data); }
    if t.caller.Sending? { InTxsPush(t.sends, t.caller.tx, b); }
    assert Places(t, b) == One(b < BLOCKS);
  }

  lemma ConfigurerKeepsPlaces(s: State, step: Step, b: nat)
    requires CanTx(s, step) && EachOnce(s.tx) && (step.ConfigStart? || step.ConfigSubmit?)
    ensures Places(DoTx(s, step), b) == Places(s.tx, b)
  {
    hide Fill, InTxs;
    var t := s.tx;
    if step.ConfigStart? { FillLeaves(t, step.b, step.data); }
    if t.caller.Configuring? { InConfigsPush(t.configs, t.caller.config, b); }
    assert Places(t, b) == One(b < BLOCKS);
  }

  lemma SendActionsKeepPlaces(s: State, step: Step, b: nat)
    requires CanTx(s, step) && EachOnce(s.tx)
    requires step.UserAction? || step.AutoAction? || step.HandEnqueue?
    ensures Places(DoTx(s, step), b) == Places(s.tx, b)
  {
    hide Fill, Content, InConfigs;
    if step.AutoAction? { FillLeaves(s.tx, step.b, Content(s.tx.mem, s.tx.template.value, s.tx.templateLen)); }
    if s.tx.hand.Some? { InTxsPush(s.tx.ring, s.tx.hand.value, b); }
    assert Places(s.tx, b) == One(b < BLOCKS);
  }

  lemma ConfigActionKeepsPlaces(s: State, b: nat)
    requires CanTx(s, ConfigAction) && EachOnce(s.tx) && WellConfigs(s.tx)
    ensures Places(DoTx(s, ConfigAction), b) == Places(s.tx, b)
  {}

  lemma WorkerKeepsPlaces(s: State, step: Step, b: nat)
    requires CanTx(s, step) && EachOnce(s.tx)
    requires step.WorkerPop? || step.WorkerLoadGen? || step.WorkerLoadPort? || step.WorkerWritten? || step.WorkerRelease?
    ensures Places(DoTx(s, step), b) == Places(s.tx, b)
  {}

  lemma TxStepKeepsPlaces(s: State, step: Step, b: nat)
    requires CanTx(s, step) && EachOnce(s.tx) && WellConfigs(s.tx)
    ensures Places(DoTx(s, step), b) == Places(s.tx, b)
  {
    hide Places, EachOnce, DoTx;
    if step.SendStart? || step.SendSubmit? {
      SenderKeepsPlaces(s, step, b);
    } else if step.ConfigStart? || step.ConfigSubmit? {
      ConfigurerKeepsPlaces(s, step, b);
    } else if step.UserAction? || step.AutoAction? || step.HandEnqueue? {
      SendActionsKeepPlaces(s, step, b);
    } else if step.ConfigAction? {
      ConfigActionKeepsPlaces(s, b);
    } else {
      WorkerKeepsPlaces(s, step, b);
    }
  }

  lemma JoinKeepsPlaces(t: Lane, b: nat)
    requires EachOnce(t)
    ensures Places(Joined(t), b) == Places(t, b)
  {
    InTxsIds(t.ring, b);
    assert Places(t, b) == One(b < BLOCKS);
  }

  ghost predicate BlocksInv(t: Lane) {
    EachOnce(t) && WellConfigs(t) && t.enqueued == t.popped + |t.ring|
  }

  lemma StepKeepsBlocks(s: State, step: Step)
    requires BlocksInv(s.tx) && Can(s, step)
    ensures BlocksInv(Do(s, step).tx)
  {
    forall b: nat ensures Places(Do(s, step).tx, b) == One(b < BLOCKS) {
      if step.Serial? { JoinKeepsPlaces(s.tx, b); } else { TxStepKeepsPlaces(s, step, b); }
      assert Places(s.tx, b) == One(b < BLOCKS);
    }
  }

  // The job ring never fills up: it has more slots than there are blocks.
  lemma RingNeverFull(t: Lane)
    requires EachOnce(t)
    ensures |t.ring| <= BLOCKS < SessionWriter.MAX_JOBS
  {
    var ids := seq(|t.ring|, k requires 0 <= k < |t.ring| => t.ring[k].block);
    forall k | 0 <= k < |ids| ensures ids[k] < BLOCKS {
      InTxsAt(t.ring, k);
      assert Places(t, ids[k]) == One(ids[k] < BLOCKS);
    }
    forall j, k | 0 <= j < k < |ids| ensures ids[j] != ids[k] {
      assert Places(t, ids[j]) == One(ids[j] < BLOCKS);
      if ids[j] == ids[k] { InTxsTwice(t.ring, j, k); }
    }
    DistinctBound(ids, BLOCKS);
  }

  // ---- session fencing ----------------------------------------------------------------------

  predicate Stamped(tx: Tx, p: Port) { tx.gen == tx.session && tx.session <= p.openGeneration }

  predicate AllStamped(txs: seq<Tx>, p: Port) { forall k :: 0 <= k < |txs| ==> Stamped(txs[k], p) }

  predicate FenceInv(s: State) {
    var p, t := s.core.port, s.tx;
    && (t.caller.Sending? ==> Stamped(t.caller.tx, p))
    && AllStamped(t.sends, p) && AllStamped(t.ring, p)
    && (t.hand.Some? ==> Stamped(t.hand.value, p))
    && (!t.worker.Idle? ==> Stamped(t.worker.tx, p))
    && (!p.live ==> t.ring == [] && t.worker.Idle?)
    && (t.worker.GenMatched? ==> t.worker.tx.gen == p.generation)
    && (t.worker.Writing? ==> p.state == Open && t.worker.tx.session == p.openGeneration)
  }

  lemma TxStepKeepsFence(s: State, step: Step)
    requires FenceInv(s) && Rest(s.core.port) && CanTx(s, step)
    ensures FenceInv(s.(tx := DoTx(s, step)))
  {}

  lemma DispatchKeepsFence(s: State, env: Env)
    requires FenceInv(s) && Rest(s.core.port) && Can(s, Serial(Dispatch(env)))
    ensures FenceInv(Do(s, Serial(Dispatch(env))))
  {
    hide DoOpen, DoClose, DoFault, Ids, PopFails;
    StepMovesSession(s.core, Dispatch(env));
    var q := s.core.port.(queue := s.core.port.queue[1..]);
    DoOpenResult(q, env);
    DoCloseResult(q, env);
    DoFaultResult(q, env);
    if q.live { SessionEndsByClose(q, env); }
  }

  lemma AbiKeepsFence(s: State, step: SerialSystem.Step)
    requires FenceInv(s) && Can(s, Serial(step)) && !step.Dispatch?
    ensures FenceInv(Do(s, Serial(step)))
  {
    hide SerialSystem.Can, SerialSystem.Do, Joined;
    AbiLeavesSession(s.core, step);
  }

  lemma AbiLeavesSession(s: SerialSystem.State, step: SerialSystem.Step)
    requires SerialSystem.Can(s, step) && !step.Dispatch?
    ensures
      var p, q := s.port, SerialSystem.Do(s, step).port;
      && q.state == p.state && q.live == p.live && q.closes == p.closes
      && q.generation == p.generation && q.openGeneration == p.openGeneration
  {
    hide SerialSystem.Run;
  }

  lemma SerialKeepsFence(s: State, step: SerialSystem.Step)
    requires FenceInv(s) && Rest(s.core.port) && Can(s, Serial(step))
    ensures FenceInv(Do(s, Serial(step)))
  {
    hide FenceInv, Rest, Do;
    if step.Dispatch? { DispatchKeepsFence(s, step.env); } else { AbiKeepsFence(s, step); }
  }

  // ---- over all runs -----------------------------------------------------------------------------

  ghost predicate Advances(states: seq<State>, steps: seq<Step>, k: nat)
    requires |states| == |steps| + 1 && k < |steps|
  {
    Can(states[k], steps[k]) && states[k + 1] == Do(states[k], steps[k])
  }

  ghost predicate IsRun(states: seq<State>, steps: seq<Step>) {
    && |states| == |steps| + 1
    && forall k :: 0 <= k < |steps| ==> Advances(states, steps, k)
  }

  ghost predicate Inv(s: State) { Rest(s.core.port) && BlocksInv(s.tx) && FenceInv(s) }

  lemma InitHolds(s: State)
    requires Init(s)
    ensures Inv(s)
  {}

  lemma StepKeepsInv(s: State, step: Step)
    requires Inv(s) && Can(s, step)
    ensures Inv(Do(s, step))
  {
    hide EachOnce, WellConfigs, FenceInv, SerialSystem.Can, SerialSystem.Do, CanTx, DoTx, Rest;
    StepKeepsBlocks(s, step);
    if step.Serial? {
      StepKeepsRest(s.core, step.step);
      SerialKeepsFence(s, step.step);
    } else {
      TxStepKeepsFence(s, step);
    }
  }

  lemma RunShape(states: seq<State>, steps: seq<Step>)
    requires IsRun(states, steps)
    ensures |states| == |steps| + 1
  {}

  lemma RunStep(states: seq<State>, steps: seq<Step>, k: nat)
    requires IsRun(states, steps) && k < |steps|
    ensures Can(states[k], steps[k]) && states[k + 1] == Do(states[k], steps[k])
  {
    assert Advances(states, steps, k);
  }

  lemma {:induction false} RunKeepsInv(states: seq<State>, steps: seq<Step>, k: nat)
    requires IsRun(states, steps) && Init(states[0]) && k < |states|
    ensures Inv(states[k])
  {
    hide *;
    RunShape(states, steps);
    if k == 0 {
      InitHolds(states[0]);
    } else {
      RunStep(states, steps, k - 1);
      RunKeepsInv(states, steps, k - 1);
      StepKeepsInv(states[k - 1], steps[k - 1]);
    }
  }

  // In every reachable state each of the 32 blocks is in exactly one place, the stranded ones
  // included, and the job ring takes every job a running worker is offered.
  lemma EveryBlockHasOnePlace(states: seq<State>, steps: seq<Step>, k: nat)
    requires IsRun(states, steps) && Init(states[0]) && k < |states|
    ensures forall b: nat :: Places(states[k].tx, b) == One(b < BLOCKS)
    ensures k < |steps| && steps[k].HandEnqueue? && states[k].core.port.live && states[k].tx.hand.Some? ==>
              states[k + 1].tx.ring == states[k].tx.ring + [states[k].tx.hand.value]
  {
    RunKeepsInv(states, steps, k);
    RingNeverFull(states[k].tx);
    if k < |steps| { RunStep(states, steps, k); }
  }

  lemma RingIsStranded(t: Lane)
    requires EachOnce(t) && t.ring != []
    ensures !(Ids(t.ring) <= t.stranded)
  {
    var b := t.ring[0].block;
    assert Places(t, b) == One(b < BLOCKS) && b in Ids(t.ring);
  }

  lemma TxStepStrandsNone(s: State, step: Step)
    requires CanTx(s, step)
    ensures DoTx(s, step).stranded == s.tx.stranded
  {}

  lemma JoinStrands(t: Lane)
    requires BlocksInv(t)
    ensures Joined(t).stranded != t.stranded <==> t.enqueued / U32 != t.popped / U32
    ensures Joined(t).stranded != t.stranded ==> Joined(t).stranded == t.stranded + Ids(t.ring)
  {
    RingNeverFull(t);
    SessionWriter.PopTestIsExactUntilWrap(t.enqueued, t.popped);
    if t.ring != [] { RingIsStranded(t); }
  }

  // Blocks are lost to the pool exactly by an owner_close whose session has enqueued its
  // 2^32nd job and not popped it: every job still on the ring strands its block.
  lemma StrandedIff(states: seq<State>, steps: seq<Step>, k: nat)
    requires IsRun(states, steps) && Init(states[0]) && k < |steps|
    ensures
      var s, t := states[k], states[k + 1];
      && (t.tx.stranded != s.tx.stranded <==>
            t.core.port.closes != s.core.port.closes && s.tx.enqueued / U32 != s.tx.popped / U32)
      && (t.tx.stranded != s.tx.stranded ==> t.tx.stranded == s.tx.stranded + Ids(s.tx.ring))
  {
    hide IsRun, Init, EachOnce, Joined, CanTx, DoTx, SerialSystem.Can, SerialSystem.Do;
    RunShape(states, steps);
    RunKeepsInv(states, steps, k);
    RunStep(states, steps, k);
    JoinStrands(states[k].tx);
    if !steps[k].Serial? { TxStepStrandsNone(states[k], steps[k]); }
  }

  lemma InitStrandsNone(s: State)
    requires Init(s)
    ensures s.tx.stranded == {}
  {}

  ghost predicate ShortSessions(states: seq<State>) {
    forall i :: 0 <= i < |states| ==> states[i].tx.enqueued < U32
  }

  lemma ShortAt(states: seq<State>, i: nat)
    requires ShortSessions(states) && i < |states|
    ensures states[i].tx.enqueued < U32
  {}

  lemma ShortDoesNotWrap(s: State)
    requires BlocksInv(s.tx) && s.tx.enqueued < U32
    ensures s.tx.enqueued / U32 == s.tx.popped / U32
  {}

  // With fewer than 2^32 jobs in every session the pool never loses a block.
  lemma {:induction false} ShortSessionsStrandNone(states: seq<State>, steps: seq<Step>, k: nat)
    requires IsRun(states, steps) && Init(states[0]) && k < |states| && ShortSessions(states)
    ensures states[k].tx.stranded == {}
  {
    hide *;
    RunShape(states, steps);
    if k == 0 {
      InitStrandsNone(states[0]);
    } else {
      ShortSessionsStrandNone(states, steps, k - 1);
      ShortAt(states, k - 1);
      RunKeepsInv(states, steps, k - 1);
      InvBlocks(states[k - 1]);
      ShortDoesNotWrap(states[k - 1]);
      StrandedIff(states, steps, k - 1);
    }
  }

  lemma InvBlocks(s: State)
    requires Inv(s)
    ensures BlocksInv(s.tx)
  {}

  // A payload reaches the backend only in the session it was accepted in, and only while that
  // session is still open.
  lemma NoWriteAcrossSessions(states: seq<State>, steps: seq<Step>, k: nat)
    requires IsRun(states, steps) && Init(states[0]) && k < |states|
    requires states[k].tx.worker.Writing?
    ensures states[k].tx.worker.tx.session == states[k].core.port.openGeneration
    ensures states[k].core.port.state == Open && states[k].core.port.live
  {
    RunKeepsInv(states, steps, k);
  }
}
