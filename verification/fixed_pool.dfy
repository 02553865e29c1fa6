// The lock-free free list of xcom_core/src/foundation/fixed_pool.hpp.
//
// Any number of threads interleave at every atomic load, link access and CAS. A block's
// first four bytes hold its free-list link only while it is free; its owner may overwrite
// them with anything at any time, and a stalled allocator may read them meanwhile.
module FixedPool {
  import opened Bytes

  const EMPTY: nat := 0xFFFF_FFFF      // kEmpty

  // Where a thread stands in allocate() or release(). `at` is history: how many head
  // changes had happened when this thread last loaded the head word.
  datatype Pc =
    | Idle
    | AllocLoaded(index: nat, tag: nat, at: nat)
    | AllocLinked(index: nat, tag: nat, next: nat, at: nat)
    | ReleaseLoaded(block: nat, index: nat, tag: nat)
    | ReleaseLinked(block: nat, index: nat, tag: nat)

  datatype State = State(
    head: nat,               // low word of head_
    tag: nat,                // high word of head_, 32 bits
    links: seq<nat>,         // the first word of every block
    pcs: map<nat, Pc>,
    free: seq<nat>,          // history: the free list, front first
    owner: map<nat, nat>,    // history: block -> the thread it was handed to
    changes: nat)            // history: successful head CASes so far

  datatype Action =
    | LoadForAlloc
    | ReturnNull
    | ReadLink
    | AllocCas
    | AllocCasFails                  // a mismatch, or spuriously (compare_exchange_weak)
    | LoadForRelease(block: nat)
    | StoreLink
    | ReleaseCas
    | ReleaseCasFails
    | WritePayload(block: nat, word: nat)
    | HandOver(block: nat, to: nat)

  predicate Releasing(pc: Pc, b: nat) {
    (pc.ReleaseLoaded? || pc.ReleaseLinked?) && pc.block == b
  }

  // Thread t holds block b and is not giving it back.
  predicate Owns(s: State, t: nat, b: nat) {
    t in s.pcs && b in s.owner && s.owner[b] == t && !Releasing(s.pcs[t], b)
  }

  predicate Can(s: State, t: nat, a: Action) {
    t in s.pcs &&
    match a
    case LoadForAlloc => s.pcs[t].Idle?
    case ReturnNull => s.pcs[t].AllocLoaded? && s.pcs[t].index == EMPTY
    case ReadLink => s.pcs[t].AllocLoaded? && s.pcs[t].index < |s.links|
    case AllocCas => s.pcs[t].AllocLinked? && s.head == s.pcs[t].index && s.tag == s.pcs[t].tag
    case AllocCasFails => s.pcs[t].AllocLinked?
    case LoadForRelease(b) => s.pcs[t].Idle? && Owns(s, t, b)
    case StoreLink => s.pcs[t].ReleaseLoaded? && s.pcs[t].block < |s.links|
    case ReleaseCas => s.pcs[t].ReleaseLinked? && s.head == s.pcs[t].index && s.tag == s.pcs[t].tag
    case ReleaseCasFails => s.pcs[t].ReleaseLinked?
    case WritePayload(b, w) => Owns(s, t, b) && b < |s.links|
    case HandOver(b, u) => Owns(s, t, b) && u in s.pcs
  }

  function Goto(s: State, t: nat, pc: Pc): State {
    s.(pcs := s.pcs[t := pc])
  }

  function Do(s: State, t: nat, a: Action): State
    requires Can(s, t, a)
  {
    var pc := s.pcs[t];
    match a
    case LoadForAlloc => Goto(s, t, AllocLoaded(s.head, s.tag, s.changes))
    case ReturnNull => Goto(s, t, Idle)
    case ReadLink => Goto(s, t, AllocLinked(pc.index, pc.tag, s.links[pc.index], pc.at))
    case AllocCas =>
      Goto(s.(head := pc.next, tag := (s.tag + 1) % U32, changes := s.changes + 1,
              free := if s.free == [] then [] else s.free[1..],
              owner := s.owner[pc.index := t]), t, Idle)
    case AllocCasFails => Goto(s, t, AllocLoaded(s.head, s.tag, s.changes))
    case LoadForRelease(b) => Goto(s, t, ReleaseLoaded(b, s.head, s.tag))
    case StoreLink =>
      Goto(s.(links := s.links[pc.block := pc.index]), t, ReleaseLinked(pc.block, pc.index, pc.tag))
    case ReleaseCas =>
      Goto(s.(head := pc.block, tag := (s.tag + 1) % U32, changes := s.changes + 1,
              free := [pc.block] + s.free,
              owner := s.owner - {pc.block}), t, Idle)
    case ReleaseCasFails => Goto(s, t, ReleaseLoaded(pc.block, s.head, s.tag))
    case WritePayload(b, w) => s.(links := s.links[b := w])
    case HandOver(b, u) => s.(owner := s.owner[b := u])
  }

  // No thread sleeps through 2^32 head changes between its head load and its CAS.
  predicate NoTagWrap(s: State, t: nat) {
    t in s.pcs && s.pcs[t].AllocLinked? ==> s.changes - s.pcs[t].at < U32
  }

  // The constructor: block i links to i + 1 and the last one to kEmpty.
  ghost predicate Init(s: State, blocks: nat) {
    && 0 < blocks < EMPTY
    && s.head == 0 && s.tag == 0 && s.changes == 0
    && |s.links| == blocks
    && (forall i :: 0 <= i < blocks ==> s.links[i] == if i + 1 < blocks then i + 1 else EMPTY)
    && (forall t :: t in s.pcs ==> s.pcs[t].Idle?)
    && s.free == seq(blocks, i => i)
    && s.owner == map[]
  }

  // ---- the invariant --------------------------------------------------------

  predicate IsIndex(s: State, i: nat) { i == EMPTY || i < |s.links| }

  // The link word that leads to place i of a list.
  function At(free: seq<nat>, i: nat): nat { if i < |free| then free[i] else EMPTY }

  // The free list is acyclic and the links spell it out.
  ghost predicate ListInv(s: State) {
    && 0 < |s.links| < EMPTY
    && s.head == At(s.free, 0)
    && (forall i :: 0 <= i < |s.free| ==> s.free[i] < |s.links|)
    && (forall i, j :: 0 <= i < j < |s.free| ==> s.free[i] != s.free[j])
    && (forall i, j :: 0 <= i < j < |s.free| && j == i + 1 ==> s.links[s.free[i]] == s.free[j])
    && (s.free != [] ==> s.links[s.free[|s.free| - 1]] == EMPTY)
    && s.tag == s.changes % U32
  }

  // Every block is free or owned, never both.
  ghost predicate OwnerInv(s: State) {
    && (forall b :: b in s.owner ==> b < |s.links| && s.owner[b] in s.pcs)
    && (forall b :: 0 <= b < |s.links| ==> (b in s.free <==> b !in s.owner))
  }

  ghost predicate PcInv(s: State, pc: Pc, t: nat) {
    match pc
    case Idle => true
    case AllocLoaded(i, g, at) =>
      IsIndex(s, i) && at <= s.changes && g == at % U32 && (at == s.changes ==> i == s.head)
    case AllocLinked(i, g, next, at) =>
      && i < |s.links| && at <= s.changes && g == at % U32
      && (at == s.changes ==> i == s.head && next == s.links[i])
    case ReleaseLoaded(b, i, g) => IsIndex(s, i) && b in s.owner && s.owner[b] == t
    case ReleaseLinked(b, i, g) => b < |s.links| && IsIndex(s, i) && b in s.owner && s.owner[b] == t && s.links[b] == i
  }

  ghost predicate Inv(s: State) {
    && ListInv(s) && OwnerInv(s)
    && forall t :: t in s.pcs ==> PcInv(s, s.pcs[t], t)
  }

  lemma InitHolds(s: State, blocks: nat)
    requires Init(s, blocks)
    ensures Inv(s)
  {
    forall b | 0 <= b < blocks ensures b in s.free {
      assert s.free[b] == b;
    }
  }

  // A successful allocation CAS cannot have been fooled by a recycled head word.
  lemma TagIdentifiesHead(s: State, t: nat)
    requires Inv(s) && Can(s, t, AllocCas) && NoTagWrap(s, t)
    ensures s.pcs[t].at == s.changes
    ensures s.free != [] && s.free[0] == s.pcs[t].index
    ensures s.pcs[t].next == At(s.free, 1)
  {}

  lemma PopKeepsList(s: State, s': State)
    requires ListInv(s) && s.free != []
    requires s'.links == s.links && s'.free == s.free[1..] && s'.head == At(s.free, 1)
    requires s'.tag == s'.changes % U32
    ensures ListInv(s')
  {}

  lemma PopKeepsOwners(s: State, s': State, t: nat)
    requires ListInv(s) && OwnerInv(s) && s.free != [] && t in s'.pcs && s'.pcs.Keys == s.pcs.Keys
    requires s'.links == s.links && s'.free == s.free[1..] && s'.owner == s.owner[s.free[0] := t]
    ensures OwnerInv(s')
  {}

  lemma AllocKeepsInv(s: State, t: nat)
    requires Inv(s) && Can(s, t, AllocCas) && NoTagWrap(s, t)
    ensures Inv(Do(s, t, AllocCas))
  {
    TagIdentifiesHead(s, t);
    var s' := Do(s, t, AllocCas);
    PopKeepsList(s, s');
    PopKeepsOwners(s, s', t);
    hide ListInv, OwnerInv;
    PcsKept(s, s', t);
  }

  lemma ReleaseKeepsInv(s: State, t: nat)
    requires Inv(s) && Can(s, t, ReleaseCas)
    ensures Inv(Do(s, t, ReleaseCas))
  {}

  // A head change moves no other thread, and takes no block another one is releasing.
  lemma PcsKept(s: State, s': State, t: nat)
    requires forall u :: u in s.pcs ==> PcInv(s, s.pcs[u], u)
    requires t in s.pcs && s'.pcs == s.pcs[t := Idle]
    requires s'.links == s.links && s'.changes == s.changes + 1
    requires forall b :: b in s.owner && s.owner[b] != t ==> b in s'.owner && s'.owner[b] == s.owner[b]
    ensures forall u :: u in s'.pcs ==> PcInv(s', s'.pcs[u], u)
  {}

  // Writes by owners, of payload or of a link about to be published, touch no free block.
  lemma WriteKeepsList(s: State, b: nat, w: nat)
    requires ListInv(s) && OwnerInv(s) && b in s.owner && b < |s.links|
    ensures ListInv(s.(links := s.links[b := w])) && OwnerInv(s.(links := s.links[b := w]))
  {
    assert forall i :: 0 <= i < |s.free| ==> s.free[i] in s.free;
  }

  // Nor do they touch the head, or the block another thread is releasing.
  lemma WriteKeepsPc(s: State, t: nat, b: nat, w: nat, u: nat)
    requires ListInv(s) && OwnerInv(s) && b < |s.links| && u in s.pcs && PcInv(s, s.pcs[u], u)
    requires b in s.owner && s.owner[b] == t && (u == t ==> !Releasing(s.pcs[t], b))
    ensures PcInv(s.(links := s.links[b := w]), s.pcs[u], u)
  {
    assert s.free != [] ==> s.free[0] in s.free;
  }

  lemma PayloadKeepsInv(s: State, t: nat, b: nat, w: nat)
    requires Inv(s) && Can(s, t, WritePayload(b, w))
    ensures Inv(Do(s, t, WritePayload(b, w)))
  {
    hide ListInv, OwnerInv, PcInv;
    WriteKeepsList(s, b, w);
    forall u | u in s.pcs ensures PcInv(Do(s, t, WritePayload(b, w)), s.pcs[u], u) { WriteKeepsPc(s, t, b, w, u); }
  }

  lemma OthersKept(s: State, t: nat, pc: Pc)
    requires Inv(s) && t in s.pcs && PcInv(s, pc, t)
    ensures Inv(Goto(s, t, pc))
  {}

  lemma StoreKeepsInv(s: State, t: nat)
    requires Inv(s) && Can(s, t, StoreLink)
    ensures Inv(Do(s, t, StoreLink))
  {
    hide ListInv, OwnerInv;
    var ReleaseLoaded(b, i, g) := s.pcs[t];
    OthersKept(s, t, Idle);
    var idle := Goto(s, t, Idle);
    WriteKeepsList(idle, b, i);
    forall u | u in s.pcs ensures PcInv(idle.(links := s.links[b := i]), idle.pcs[u], u) {
      WriteKeepsPc(idle, t, b, i, u);
    }
    OthersKept(idle.(links := s.links[b := i]), t, ReleaseLinked(b, i, g));
    assert s.pcs[t := Idle][t := ReleaseLinked(b, i, g)] == s.pcs[t := ReleaseLinked(b, i, g)];
  }

  lemma HandOverKeepsInv(s: State, t: nat, a: Action)
    requires Inv(s) && Can(s, t, a) && a.HandOver?
    ensures Inv(Do(s, t, a))
  {}

  // Loads, failed CASes and returns move only the thread that takes them.
  lemma LocalStepKeepsInv(s: State, t: nat, a: Action)
    requires Inv(s) && Can(s, t, a)
    requires !a.AllocCas? && !a.ReleaseCas? && !a.WritePayload? && !a.StoreLink? && !a.HandOver?
    ensures Inv(Do(s, t, a))
  {
    hide Inv;
    LocalPc(s, t, a);
    OthersKept(s, t, Do(s, t, a).pcs[t]);
  }

  lemma LocalPc(s: State, t: nat, a: Action)
    requires Inv(s) && Can(s, t, a)
    requires !a.AllocCas? && !a.ReleaseCas? && !a.WritePayload? && !a.StoreLink? && !a.HandOver?
    ensures t in Do(s, t, a).pcs && PcInv(s, Do(s, t, a).pcs[t], t)
  {
    assert PcInv(s, s.pcs[t], t);
  }

  lemma StepKeepsInv(s: State, t: nat, a: Action)
    requires Inv(s) && Can(s, t, a) && (a.AllocCas? ==> NoTagWrap(s, t))
    ensures Inv(Do(s, t, a))
  {
    hide NoTagWrap;
    match a
    case AllocCas => AllocKeepsInv(s, t);
    case ReleaseCas => ReleaseKeepsInv(s, t);
    case WritePayload(b, w) => PayloadKeepsInv(s, t, b, w);
    case StoreLink => StoreKeepsInv(s, t);
    case HandOver(_, _) => HandOverKeepsInv(s, t, a);
    case _ => LocalStepKeepsInv(s, t, a);
  }

  // ---- runs -----------------------------------------------------------------

  datatype Event = Event(t: nat, a: Action)

  ghost predicate Run(states: seq<State>, events: seq<Event>) {
    && |states| == |events| + 1
    && forall i :: 0 <= i < |events| ==>
         && Can(states[i], events[i].t, events[i].a)
         && states[i + 1] == Do(states[i], events[i].t, events[i].a)
  }

  ghost predicate RunWithoutWrap(states: seq<State>, events: seq<Event>) {
    && Run(states, events)
    && forall i :: 0 <= i < |events| && events[i].a.AllocCas? ==> NoTagWrap(states[i], events[i].t)
  }

  lemma {:induction false} RunKeepsInv(states: seq<State>, events: seq<Event>, blocks: nat, k: nat)
    requires RunWithoutWrap(states, events) && Init(states[0], blocks) && k < |states|
    ensures Inv(states[k])
  {
    if k == 0 {
      InitHolds(states[0], blocks);
    } else {
      RunKeepsInv(states, events, blocks, k - 1);
      StepKeepsInv(states[k - 1], events[k - 1].t, events[k - 1].a);
    }
  }

  // Following the links from `from`, as a reader of the storage would.
  function Walk(links: seq<nat>, from: nat, hops: nat): seq<nat>
    decreases hops
  {
    if hops == 0 || from >= |links| then [] else [from] + Walk(links, links[from], hops - 1)
  }

  lemma {:induction false} WalkFindsList(s: State, k: nat, hops: nat)
    requires ListInv(s) && k <= |s.free| && |s.free| - k <= hops
    ensures Walk(s.links, At(s.free, k), hops) == s.free[k..]
    decreases hops
  {
    if k < |s.free| {
      assert s.links[s.free[k]] == At(s.free, k + 1);
      assert s.free[k..] == [s.free[k]] + s.free[k + 1..];
      WalkFindsList(s, k + 1, hops - 1);
    }
  }

  // Pool safety, in every state of every run: walking the links from the head visits each
  // block not owned exactly once and then stops, and every other block has one owner.
  lemma PoolSafe(states: seq<State>, events: seq<Event>, blocks: nat, k: nat)
    requires RunWithoutWrap(states, events) && Init(states[0], blocks) && k < |states|
    ensures
      var s := states[k];
      var list := Walk(s.links, s.head, |s.links|);
      && (forall i, j :: 0 <= i < j < |list| ==> list[i] != list[j])
      && (forall b :: b in list ==> b < |s.links| && b !in s.owner)
      && (forall b :: 0 <= b < |s.links| && b !in list ==> b in s.owner && s.owner[b] in s.pcs)
      && Walk(s.links, s.head, |s.links| + 1) == list
  {
    RunKeepsInv(states, events, blocks, k);
    var s := states[k];
    DistinctBound(s.free, |s.links|);
    assert s.free[0..] == s.free;
    WalkFindsList(s, 0, |s.links|);
    WalkFindsList(s, 0, |s.links| + 1);
    assert Walk(s.links, s.head, |s.links|) == s.free;
    forall b | b in s.free ensures b < |s.links| && b !in s.owner {
      var i :| 0 <= i < |s.free| && s.free[i] == b;
    }
  }

  // What one completed call means: allocate() hands out a block nobody owned and leaves every
  // other ownership alone; release() takes back the caller's own block only.
  lemma CallsMoveOneBlock(states: seq<State>, events: seq<Event>, blocks: nat, k: nat)
    requires RunWithoutWrap(states, events) && Init(states[0], blocks) && k < |events|
    ensures
      var s, s', e := states[k], states[k + 1], events[k];
      && (e.a.AllocCas? ==>
            exists b: nat :: b < |s.links| && b !in s.owner && s'.owner == s.owner[b := e.t])
      && (e.a.ReleaseCas? ==>
            var b := s.pcs[e.t].block;
            b in s.owner && s.owner[b] == e.t && s'.owner == s.owner - {b})
  {
    RunKeepsInv(states, events, blocks, k);
    var s, e := states[k], events[k];
    assert PcInv(s, s.pcs[e.t], e.t);
    if e.a.AllocCas? {
      TagIdentifiesHead(s, e.t);
      assert s.pcs[e.t].index in s.free;
    }
  }

  // allocate() gives up only on a head word it loaded while no block at all was free.
  lemma NullOnlyWhenEmpty(states: seq<State>, events: seq<Event>, blocks: nat, k: nat)
    requires RunWithoutWrap(states, events) && Init(states[0], blocks) && k < |events|
    ensures
      var s, s', e := states[k], states[k + 1], events[k];
      (e.a.LoadForAlloc? || e.a.AllocCasFails?) && Can(s', e.t, ReturnNull) ==>
        forall b :: 0 <= b < |s.links| ==> b in s.owner
  {
    RunKeepsInv(states, events, blocks, k);
    var s, e := states[k], events[k];
    if (e.a.LoadForAlloc? || e.a.AllocCasFails?) && Can(states[k + 1], e.t, ReturnNull) {
      assert s.head == EMPTY;
    }
  }

  // ---- the limit of the tag ------------------------------------------------------

  // Three blocks, two threads. Thread 0 loads the head and its link and stalls; thread 1 takes
  // all three blocks and gives block 0 back, then takes and returns it for ever.
  const SETUP: seq<Event> := [
    Event(0, LoadForAlloc), Event(0, ReadLink),
    Event(1, LoadForAlloc), Event(1, ReadLink), Event(1, AllocCas),
    Event(1, LoadForAlloc), Event(1, ReadLink), Event(1, AllocCas),
    Event(1, LoadForAlloc), Event(1, ReadLink), Event(1, AllocCas),
    Event(1, LoadForRelease(0)), Event(1, StoreLink), Event(1, ReleaseCas)]

  const CYCLE: seq<Event> := [
    Event(1, LoadForAlloc), Event(1, ReadLink), Event(1, AllocCas),
    Event(1, LoadForRelease(0)), Event(1, StoreLink), Event(1, ReleaseCas)]

  function AfterSetup(k: nat): State {
    var taken := if k < 5 then 0 else if k < 8 then 1 else if k < 11 then 2 else 3;
    var changes := if k >= 14 then 4 else taken;
    State(
      if k >= 14 then 0 else if taken == 3 then EMPTY else taken, changes,
      [if k >= 13 then EMPTY else 1, 2, EMPTY],
      map[0 := if k == 0 then Idle else if k == 1 then AllocLoaded(0, 0, 0) else AllocLinked(0, 0, 1, 0),
          1 := if k == 3 || k == 6 || k == 9 then AllocLoaded(taken, taken, taken)
               else if k == 4 || k == 7 || k == 10
               then AllocLinked(taken, taken, if taken == 2 then EMPTY else taken + 1, taken)
               else if k == 12 then ReleaseLoaded(0, EMPTY, 3)
               else if k == 13 then ReleaseLinked(0, EMPTY, 3) else Idle],
      if k >= 14 then [0] else if taken == 0 then [0, 1, 2] else if taken == 1 then [1, 2] else if taken == 2 then [2] else [],
      if k >= 14 then map[1 := 1, 2 := 1] else if taken == 0 then map[] else if taken == 1 then map[0 := 1]
      else if taken == 2 then map[0 := 1, 1 := 1] else map[0 := 1, 1 := 1, 2 := 1],
      changes)
  }

  // k steps into the round of thread 1 that starts after n head changes.
  function InCycle(n: nat, k: nat): State {
    var out := 3 <= k <= 5;
    var changes := if out then n + 1 else n;
    var tag := changes % U32;
    State(
      if out then EMPTY else 0, tag, [EMPTY, 2, EMPTY],
      map[0 := AllocLinked(0, 0, 1, 0),
          1 := if k == 1 then AllocLoaded(0, tag, n) else if k == 2 then AllocLinked(0, tag, EMPTY, n)
               else if k == 4 then ReleaseLoaded(0, EMPTY, tag)
               else if k == 5 then ReleaseLinked(0, EMPTY, tag) else Idle],
      if out then [] else [0],
      if out then map[0 := 1, 1 := 1, 2 := 1] else map[1 := 1, 2 := 1],
      changes)
  }

  ghost predicate SetupFollows(k: nat)
    requires k < |SETUP|
  {
    && Can(AfterSetup(k), SETUP[k].t, SETUP[k].a)
    && Do(AfterSetup(k), SETUP[k].t, SETUP[k].a) == AfterSetup(k + 1)
  }

  lemma FirstTaken(k: nat)
    requires k < 5
    ensures SetupFollows(k)
  {}

  lemma SecondTaken(k: nat)
    requires 5 <= k < 8
    ensures SetupFollows(k)
  {}

  lemma ThirdTakenOneReturned(k: nat)
    requires 8 <= k < |SETUP|
    ensures SetupFollows(k)
  {}

  lemma SetupEnds()
    ensures AfterSetup(14) == InCycle(4, 0)
  {}

  lemma NextTag(n: nat)
    ensures (n % U32 + 1) % U32 == (n + 1) % U32
  {
    if n % U32 + 1 < U32 { ModUnique(n + 1, n / U32, n % U32 + 1); } else { ModUnique(n + 1, n / U32 + 1, 0); }
  }

  lemma CycleStep(n: nat, k: nat)
    requires k < 6
    ensures Can(InCycle(n, k), CYCLE[k].t, CYCLE[k].a)
    ensures Do(InCycle(n, k), CYCLE[k].t, CYCLE[k].a) == if k == 5 then InCycle(n + 2, 0) else InCycle(n, k + 1)
  {
    NextTag(n);
    NextTag(n + 1);
    assert [0][1..] == [] && [EMPTY, 2, EMPTY][0 := EMPTY] == [EMPTY, 2, EMPTY];
  }

  const ROUNDS: nat := (U32 - 4) / 2
  const LAST: nat := 14 + 6 * ROUNDS

  function StateAt(i: nat): State {
    if i < 14 then AfterSetup(i) else InCycle(4 + 2 * ((i - 14) / 6), (i - 14) % 6)
  }

  function EventAt(i: nat): Event { if i < 14 then SETUP[i] else CYCLE[(i - 14) % 6] }

  lemma StateStep(i: nat)
    ensures Can(StateAt(i), EventAt(i).t, EventAt(i).a)
    ensures Do(StateAt(i), EventAt(i).t, EventAt(i).a) == StateAt(i + 1)
  {
    hide AfterSetup, InCycle, Can, Do;
    if i < 14 {
      if i < 5 { FirstTaken(i); } else if i < 8 { SecondTaken(i); } else { ThirdTakenOneReturned(i); }
      SetupEnds();
    } else {
      var c, k := (i - 14) / 6, (i - 14) % 6;
      CycleStep(4 + 2 * c, k);
      assert i - 13 == 6 * c + (k + 1);
    }
  }

  lemma StalledCas()
    ensures
      var s := StateAt(LAST);
      && Can(s, 0, AllocCas) && s.pcs[0].AllocLinked? && s.changes - s.pcs[0].at == U32
      && Do(s, 0, AllocCas).head == 1 && 1 in Do(s, 0, AllocCas).owner
  {}

  lemma FirstState()
    ensures Init(StateAt(0), 3)
  {}

  // The bound of NoTagWrap cannot be relaxed: after exactly 2^32 head changes the CAS of the
  // stalled thread succeeds, and block 1 becomes the head of the free list while it has an owner.
  lemma TagWrapBreaksPool() returns (states: seq<State>, events: seq<Event>)
    ensures Run(states, events) && Init(states[0], 3)
    ensures
      var s := states[|events|];
      && s.head == 1 && 1 in s.owner
      && events[|events| - 1] == Event(0, AllocCas)
      && 0 in states[|events| - 1].pcs && states[|events| - 1].pcs[0].AllocLinked?
      && states[|events| - 1].changes - states[|events| - 1].pcs[0].at == U32
  {
    hide StateAt, EventAt, Can, Do, Init;
    StalledCas();
    FirstState();
    states := seq(LAST + 1, i requires i >= 0 => StateAt(i)) + [Do(StateAt(LAST), 0, AllocCas)];
    events := seq(LAST, i requires i >= 0 => EventAt(i)) + [Event(0, AllocCas)];
    forall i | 0 <= i < |events|
      ensures Can(states[i], events[i].t, events[i].a) && states[i + 1] == Do(states[i], events[i].t, events[i].a)
    {
      if i < LAST { StateStep(i); }
    }
  }

  // ---- undisturbed calls --------------------------------------------------------------

  // allocate() when nobody interferes.
  function AllocAlone(s: State, t: nat): State
    requires t in s.pcs && s.pcs[t].Idle?
  {
    var a := Do(s, t, LoadForAlloc);
    if a.pcs[t].index == EMPTY then Do(a, t, ReturnNull)
    else if a.pcs[t].index < |s.links| then Do(Do(a, t, ReadLink), t, AllocCas)
    else a
  }

  // release() when nobody interferes.
  function ReleaseAlone(s: State, t: nat, b: nat): State
    requires Can(s, t, LoadForRelease(b)) && b < |s.links|
  {
    Do(Do(Do(s, t, LoadForRelease(b)), t, StoreLink), t, ReleaseCas)
  }

  // Undisturbed, allocate() takes the front of the free list and fails only on an empty one,
  // and release() puts the block at its front.
  lemma UndisturbedCalls(states: seq<State>, events: seq<Event>, blocks: nat, t: nat, b: nat)
    requires RunWithoutWrap(states, events) && Init(states[0], blocks) && |states| == |events| + 1
    ensures
      var s := states[|events|];
      && (t in s.pcs && s.pcs[t].Idle? ==>
            var r := AllocAlone(s, t);
            && r.pcs == s.pcs
            && if s.free == [] then r.owner == s.owner && r.free == []
               else s.free[0] !in s.owner && r.owner == s.owner[s.free[0] := t] && r.free == s.free[1..])
      && (t in s.pcs && Can(s, t, LoadForRelease(b)) ==>
            && b < |s.links|
            && var r := ReleaseAlone(s, t, b);
            r.pcs == s.pcs && r.owner == s.owner - {b} && r.free == [b] + s.free)
  {
    hide Inv, Run, Init, AllocAlone;
    RunKeepsInv(states, events, blocks, |events|);
    var s := states[|events|];
    if t in s.pcs && s.pcs[t].Idle? { AllocAloneTakes(s, t); }
    if t in s.pcs && Can(s, t, LoadForRelease(b)) { ReleaseAloneGives(s, t, b); }
  }

  lemma ReleaseAloneGives(s: State, t: nat, b: nat)
    requires Inv(s) && Can(s, t, LoadForRelease(b))
    ensures b < |s.links|
    ensures
      var r := ReleaseAlone(s, t, b);
      r.pcs == s.pcs && r.owner == s.owner - {b} && r.free == [b] + s.free
  {}

  lemma AllocAloneTakes(s: State, t: nat)
    requires Inv(s) && t in s.pcs && s.pcs[t].Idle?
    ensures
      var r := AllocAlone(s, t);
      && r.pcs == s.pcs
      && if s.free == [] then r.owner == s.owner && r.free == []
         else s.free[0] !in s.owner && r.owner == s.owner[s.free[0] := t] && r.free == s.free[1..]
  {
    if s.free != [] { assert s.free[0] in s.free; }
  }
}
