// The receive path of xcom_core as one machine: the read thread cutting callbacks into
// ref-counted blocks (rx_ingress), the Dispatcher formatting them (rx_kick_action), the log
// writer, and the drain caller. A step is one shared action of one thread together with the
// thread-local work around it; steps of different threads interleave freely.
module RxPath {
  import opened Bytes
  import opened Normaliser
  import DL = DisplayLane
  import LP = LeaseProtocol

  const BLOCKS := 128                // kRxBlockCount, and the capacity of both rings
  const BLOCK_BYTES := 4096          // kRxBlockBytes
  const RESERVE := 96                // kRxRawReserveBlocks

  // RxBlockRef. `unlogged` is the high bit of a display descriptor's len.
  datatype Desc = Desc(block: nat, len: nat, ms: nat, unlogged: bool)

  // The locals of one rx_ingress call.
  datatype Ingress = Ingress(fileLane: bool, rest: seq<byte>, accepted: nat, backlog: nat)

  datatype Reader =
    | NoCall
    | Cutting(i: Ingress)                                            // loop head
    | Publishing(i: Ingress, d: Desc, displayOk: bool, rawDone: bool)  // owns a claimed block
    | Counting(i: Ingress, n: nat)                                   // published, rx_bytes pending
    | Arming(i: Ingress)
    | Submitting(i: Ingress)                                         // armed the gate
    | Refused(i: Ingress)                                            // submission refused, gate still armed
    | Returning(i: Ingress)

  datatype Writer = Parked | Writing(d: Desc, offset: nat) | Written(d: Desc)

  datatype Dispatcher =
    | Resting
    | Popping(left: nat)
    | Holding(left: nat, d: Desc)
    | Formatting(left: nat, d: Desc, id: nat)
    | Consumed(left: nat, d: Desc)
    | Disarming
    | Rechecking
    | KickSubmitting
    | KickRefused

  datatype Ui = Away | UiArming | UiSubmitting | UiRefused

  // The ref-counted block pool, its two rings and ReceiveAo's deferred slot.
  datatype Pool = Pool(refs: seq<nat>, mem: seq<seq<byte>>,
                       display: seq<Desc>, raw: seq<Desc>, deferred: Option<Desc>)

  datatype Formatted = Formatted(payload: seq<byte>, hex: bool)

  // Everything between ReceiveAo and the view. The last four fields are history: whether this
  // session began with empty lanes, and what it has published, formatted and shown since.
  datatype Show = Show(lane: DL.Lane, carry: Carry, gen: nat, hex: bool, paused: bool,
                       session: bool, published: seq<byte>, formatted: seq<Formatted>, delivered: seq<byte>)

  // RxKickGate and the static events in flight. History since the gate was last armed:
  // `lossy`, a kick was refused or a close released the deferred block; `missed`, a retry kick
  // met an action that had already given up on its block; `shifted`, a session boundary freed
  // buffers under a deferred block.
  datatype Kick = Kick(gate: bool, queued: nat, lossy: bool, missed: bool, shifted: bool)

  // The log file. History since it was opened: the bytes put on the raw ring (and those on it
  // at the time), the bytes of the file, and whether the writer gave up on a segment.
  datatype Log = Log(open: bool, accepting: bool, stopping: bool,
                     leased: seq<byte>, written: seq<byte>, tailCharged: bool)

  // Admission to the file lane, grain for grain LeaseProtocol's but for the lease itself: the
  // writer's Open and Close jobs, the ABI caller inside close(), and the Close job that is
  // draining (with its clean mark). History: whether a Close job ever closed the file under a
  // lease, and whether any close was begun while a queued Open could reopen the file.
  datatype Admission = Admission(jobs: seq<LP.Job>, closer: LP.Closer, closing: Option<bool>,
                                 underLease: bool, unclean: bool)

  // rx_bytes, save_rejected_bytes, rx_pool_exhausted_bytes.
  datatype Counters = Counters(rxBytes: nat, rejected: nat, exhausted: nat)

  // History: where every delivered byte went.
  datatype Ledger = Ledger(
    offered: nat,                  // delivered by the backend
    chargedIngress: nat,           // counted as loss by the read thread
    chargedWriter: nat,            // counted as loss by the log writer
    chargedDisplay: nat,           // counted as loss by a reset or a deferred release
    fileAccepted: nat,             // in segments that had a file lane
    unloggedAccepted: nat,         // in segments that had none
    skipped: nat,                  // file-backed, not taken by the display
    writtenTotal: nat,             // in the log files
    takenUnlogged: nat,            // unlogged, in batches handed to the drain caller whole
    dropped: nat,                  // unlogged, in batches a drain threw away unread or half read
    formattedToNothing: nat)       // unlogged, normalised to no text

  // History: one callback, what it delivered, to which lane, and how much of it found an owner;
  // and one piece of a callback as it was published.
  datatype Call = Call(data: seq<byte>, fileLane: bool, kept: nat)
  datatype Segment = Segment(bytes: seq<byte>, fileLane: bool, shown: bool)

  // History, in the bytes the backend delivered and never read back from a block: the callbacks,
  // the piece in the read thread's hands, the pieces published, the bytes put on the raw ring,
  // and how many of these came before the file was opened and before the session began.
  datatype Heard = Heard(calls: seq<Call>, piece: seq<byte>, segments: seq<Segment>, pushed: seq<byte>,
                         fileStart: nat, sessionStart: nat)

  datatype State = State(
    pool: Pool, show: Show, kick: Kick, log: Log, admit: Admission, counters: Counters, ledger: Ledger,
    heard: Heard, reader: Reader, writer: Writer, dispatcher: Dispatcher, ui: Ui)

  datatype Step =
    // read thread
    | Reject(data: seq<byte>)        // admission closed or port not OPEN
    | Begin(data: seq<byte>)
    | Claim(b: nat, ms: nat)
    | GiveUp                         // no block: unlogged, or file lane while closing
    | EndOfData
    | PushRaw
    | PushDisplay
    | SkipDisplay
    | Count
    | ReaderArm
    | ReaderSubmit(ok: bool)
    | ReaderDisarm
    | ReleaseLease
    // Dispatcher
    | TakeDeferred
    | TakeReady
    | FormatRefused                  // paused, or no display buffer
    | ReleaseBlock
    | Acquire(id: nat)
    | Format
    | Dispatch
    | StopPopping
    | Disarm
    | Recheck
    | KickSubmit(ok: bool)
    | KickDisarm
    | RetireDeferred                 // owner_close
    | CommitClose
    | CommitOpen(g: nat)
    // log writer
    | PopRaw
    | WriteSome(k: nat)
    | ChargeTail
    | ReleaseRaw
    | OpenLog(ok: bool)
    | StartClose                     // the Close job: stop admission, then drain
    | CloseFile
    // ABI thread
    | RequestOpen
    | CloseAdmission                 // close_append_admission
    | SeeNoLease
    | GiveUpClose
    | RequestClose
    | Stop
    | DrainUi(capacity: nat)
    | SetOptions(hex: bool, paused: bool)
    | UiArm
    | UiSubmit(ok: bool)
    | UiDisarm

  function FreeBlocks(refs: seq<nat>): set<nat> { set b | 0 <= b < |refs| && refs[b] == 0 }

  function Payload(mem: seq<seq<byte>>, d: Desc): seq<byte> {
    if d.block < |mem| && d.len <= |mem[d.block]| then mem[d.block][..d.len] else []
  }

  // The payloads on a ring, front first.
  function RingText(mem: seq<seq<byte>>, ring: seq<Desc>): seq<byte> {
    if ring == [] then [] else Payload(mem, ring[0]) + RingText(mem, ring[1..])
  }

  // The bytes on a ring, by the descriptors.
  function FileBytes(ring: seq<Desc>): nat {
    if ring == [] then 0 else ring[0].len + FileBytes(ring[1..])
  }

  function AddRef(refs: seq<nat>, b: nat): seq<nat> {
    if b < |refs| then refs[b := refs[b] + 1] else refs
  }

  // event_gc: one reference less.
  function DropRef(refs: seq<nat>, b: nat): seq<nat> {
    if b < |refs| && refs[b] > 0 then refs[b := refs[b] - 1] else refs
  }

  // alloc_with_margin succeeds when `margin` blocks stay free afterwards.
  predicate ClaimLeaves(refs: seq<nat>, margin: nat) { |FreeBlocks(refs)| >= margin + 1 }

  // ---- read thread: rx_ingress ------------------------------------------------

  function Hear(s: State, data: seq<byte>, fileLane: bool, kept: nat): State {
    s.(heard := s.heard.(calls := s.heard.calls + [Call(data, fileLane, kept)]))
  }

  // The last n bytes of the running callback found no owner.
  function Forfeit(calls: seq<Call>, n: nat): seq<Call> {
    if calls == [] then []
    else
      var last := calls[|calls| - 1];
      calls[..|calls| - 1] + [last.(kept := if n <= last.kept then last.kept - n else 0)]
  }

  function Publish(s: State, fileLane: bool, shown: bool): State {
    s.(heard := s.heard.(segments := s.heard.segments + [Segment(s.heard.piece, fileLane, shown)]))
  }

  predicate CanCut(s: State, step: Step) {
    match step
    case Reject(data) => s.reader.NoCall?
    case Begin(data) => s.reader.NoCall? && data != []
    case Claim(b, ms) =>
      s.reader.Cutting? && s.reader.i.rest != [] && b < |s.pool.mem| && b in FreeBlocks(s.pool.refs)
    case GiveUp => s.reader.Cutting? && s.reader.i.rest != [] && FreeBlocks(s.pool.refs) == {}
    case EndOfData => s.reader.Cutting? && s.reader.i.rest == []
    case _ => false
  }

  function AfterLoop(i: Ingress): Reader { if i.accepted > 0 then Arming(i) else Returning(i) }

  // Bytes without an owner go to the loss ledger (count_rejected_rx).
  function ChargeReader(s: State, n: nat): State {
    s.(counters := s.counters.(rejected := s.counters.rejected + n),
       ledger := s.ledger.(chargedIngress := s.ledger.chargedIngress + n))
  }

  function Offer(s: State, n: nat): State { s.(ledger := s.ledger.(offered := s.ledger.offered + n)) }

  function LeaveLoop(s: State, i: Ingress): State {
    s.(reader := AfterLoop(i), counters := s.counters.(exhausted := s.counters.exhausted + i.backlog))
  }

  function DoCut(s: State, step: Step): State
    requires CanCut(s, step)
  {
    match step
    case Reject(data) => Hear(Offer(ChargeReader(s, |data|), |data|), data, false, 0)
    case Begin(data) =>
      Hear(Offer(s.(reader := Cutting(Ingress(s.log.accepting, data, 0, 0))), |data|), data, s.log.accepting, |data|)
    case Claim(b, ms) =>
      var i := s.reader.i;
      var n := Min(|i.rest|, BLOCK_BYTES);
      var displayOk := ClaimLeaves(s.pool.refs, if i.fileLane then RESERVE else 0);
      s.(pool := s.pool.(refs := AddRef(s.pool.refs, b),
                         mem := s.pool.mem[b := Overwrite(s.pool.mem[b], i.rest[..n])]),
         reader := Publishing(i.(rest := i.rest[n..]), Desc(b, n, ms, !i.fileLane), displayOk, false),
         heard := s.heard.(piece := i.rest[..n]))
    case GiveUp =>
      LeaveLoop(ChargeReader(s, |s.reader.i.rest|), s.reader.i.(rest := []))
        .(heard := s.heard.(calls := Forfeit(s.heard.calls, |s.reader.i.rest|)))
    case EndOfData => LeaveLoop(s, s.reader.i)
  }

  // RxBlockLane::publish: the raw ring first, then the display ring.
  predicate CanPublish(s: State, step: Step) {
    match step
    case PushRaw => s.reader.Publishing? && s.reader.i.fileLane && !s.reader.rawDone
    case PushDisplay =>
      s.reader.Publishing? && s.reader.displayOk && (s.reader.i.fileLane ==> s.reader.rawDone)
    case SkipDisplay =>
      s.reader.Publishing? && !s.reader.displayOk && (s.reader.i.fileLane ==> s.reader.rawDone)
    case Count => s.reader.Counting?
    case _ => false
  }

  function DoPublish(s: State, step: Step): State
    requires CanPublish(s, step)
  {
    match step
    case PushRaw =>
      var d := s.reader.d;
      s.(pool := s.pool.(refs := if s.reader.displayOk then AddRef(s.pool.refs, d.block) else s.pool.refs,
                         raw := s.pool.raw + [d]),
         reader := s.reader.(rawDone := true),
         log := s.log.(leased := s.log.leased + Payload(s.pool.mem, d)),
         heard := s.heard.(pushed := s.heard.pushed + s.heard.piece),
         ledger := s.ledger.(fileAccepted := s.ledger.fileAccepted + d.len))
    case PushDisplay =>
      var d := s.reader.d;
      Publish(s, s.reader.i.fileLane, true).(pool := s.pool.(display := s.pool.display + [d]),
         reader := Counting(s.reader.i, d.len),
         show := s.show.(published := s.show.published + Payload(s.pool.mem, d)),
         ledger := s.ledger.(unloggedAccepted := s.ledger.unloggedAccepted + (if d.unlogged then d.len else 0)))
    case SkipDisplay =>
      var d := s.reader.d;
      Publish(s, s.reader.i.fileLane, false)
        .(reader := Counting(s.reader.i.(backlog := s.reader.i.backlog + d.len), d.len),
         ledger := s.ledger.(skipped := s.ledger.skipped + d.len))
    case Count =>
      var n := s.reader.n;
      s.(counters := s.counters.(rxBytes := s.counters.rxBytes + n),
         reader := Cutting(s.reader.i.(accepted := s.reader.i.accepted + n)))
  }

  predicate CanReturn(s: State, step: Step) {
    match step
    case ReaderArm => s.reader.Arming?
    case ReaderSubmit(_) => s.reader.Submitting?
    case ReaderDisarm => s.reader.Refused?
    case ReleaseLease => s.reader.Returning?
    case _ => false
  }

  // try_arm on a clear gate; submit_rx_kick accepted, refused, and released after a refusal.
  function Armed(k: Kick): Kick { k.(gate := true, lossy := false, missed := false, shifted := false) }
  function Accepted(k: Kick): Kick { k.(queued := k.queued + 1) }
  function Rejected(k: Kick): Kick { k.(lossy := true) }
  function Disarmed(k: Kick): Kick { k.(gate := false) }

  function DoReturn(s: State, step: Step): State
    requires CanReturn(s, step)
  {
    match step
    case ReaderArm =>
      if s.kick.gate then s.(reader := Returning(s.reader.i))
      else s.(kick := Armed(s.kick), reader := Submitting(s.reader.i))
    case ReaderSubmit(ok) =>
      if ok then s.(kick := Accepted(s.kick), reader := Returning(s.reader.i))
      else s.(kick := Rejected(s.kick), reader := Refused(s.reader.i))
    case ReaderDisarm => s.(kick := Disarmed(s.kick), reader := Returning(s.reader.i))
    case ReleaseLease => s.(reader := NoCall)
  }

  // ---- Dispatcher: the loop of rx_kick_action ---------------------------------------

  predicate CanPop(s: State, step: Step) {
    match step
    case TakeDeferred => s.dispatcher.Popping? && s.dispatcher.left > 0 && s.pool.deferred.Some?
    case TakeReady =>
      s.dispatcher.Popping? && s.dispatcher.left > 0 && s.pool.deferred.None? && s.pool.display != []
    case FormatRefused => s.dispatcher.Holding? && (s.show.paused || s.show.lane.free == {})
    case ReleaseBlock => s.dispatcher.Consumed?
    case _ => false
  }

  function DoPop(s: State, step: Step): State
    requires CanPop(s, step)
  {
    match step
    case TakeDeferred =>
      s.(pool := s.pool.(deferred := None), dispatcher := Holding(s.dispatcher.left - 1, s.pool.deferred.value))
    case TakeReady =>
      s.(pool := s.pool.(display := s.pool.display[1..]),
         dispatcher := Holding(s.dispatcher.left - 1, s.pool.display[0]))
    case FormatRefused => s.(pool := s.pool.(deferred := Some(s.dispatcher.d)), dispatcher := Disarming)
    case ReleaseBlock =>
      s.(pool := s.pool.(refs := DropRef(s.pool.refs, s.dispatcher.d.block)), dispatcher := Popping(s.dispatcher.left))
  }

  // rx_format_block
  predicate CanFormat(s: State, step: Step) {
    match step
    case Acquire(id) => s.dispatcher.Holding? && !s.show.paused && id in s.show.lane.free
    case Format =>
      && s.dispatcher.Formatting? && s.dispatcher.id < |s.show.lane.bufs|
      && |s.show.lane.bufs[s.dispatcher.id]| == DL.BATCH_BYTES
    case _ => false
  }

  // What the formatter makes of one block. The hex view leaves the carried sequence alone and
  // notes whether its text ends in a line break.
  function FormatBlock(c: Carry, payload: seq<byte>, hex: bool): (Carry, seq<byte>) {
    if hex then (HexCarry(c, Hex(payload)), Hex(payload)) else Norm(c, payload)
  }

  function HexCarry(c: Carry, text: seq<byte>): Carry {
    if text == [] then c else c.(lineStart := text[|text| - 1] == LF || text[|text| - 1] == CR)
  }

  function DoFormat(s: State, step: Step): State
    requires CanFormat(s, step)
  {
    match step
    case Acquire(id) =>
      s.(show := s.show.(lane := s.show.lane.(free := s.show.lane.free - {id})),
         dispatcher := Formatting(s.dispatcher.left, s.dispatcher.d, id))
    case Format =>
      var payload := Payload(s.pool.mem, s.dispatcher.d);
      var made := FormatBlock(s.show.carry, payload, s.show.hex);
      var show := s.show.(carry := made.0, formatted := s.show.formatted + [Formatted(payload, s.show.hex)]);
      Deliver(s.(show := show), made.1)
  }

  // Queue the text, or hand the buffer back when there is none.
  function Deliver(s: State, text: seq<byte>): State
    requires CanFormat(s, Format)
  {
    var left, d, id := s.dispatcher.left, s.dispatcher.d, s.dispatcher.id;
    var lane := s.show.lane;
    if text == [] then
      s.(show := s.show.(lane := lane.(free := lane.free + {id})), dispatcher := Consumed(left, d),
         ledger := s.ledger.(formattedToNothing := s.ledger.formattedToNothing + (if d.unlogged then d.len else 0)))
    else if |text| <= DL.BATCH_BYTES && |lane.ready| < DL.BATCHES then
      var batch := DL.Batch(id, |text|, d.ms, s.show.gen, d.len, d.unlogged);
      s.(show := s.show.(lane := lane.(bufs := lane.bufs[id := Overwrite(lane.bufs[id], text)],
                                       ready := lane.ready + [batch])),
         dispatcher := Consumed(left, d))
    else  // push_ready refused: the carry has moved on but the block stays
      s.(show := s.show.(lane := lane.(free := lane.free + {id})),
         pool := s.pool.(deferred := Some(d)), dispatcher := Disarming)
  }

  // Dispatch of the static event, and the disarm / recheck / re-arm protocol at the end.
  predicate CanKick(s: State, step: Step) {
    match step
    case Dispatch => s.dispatcher.Resting? && s.kick.queued > 0
    case StopPopping =>
      s.dispatcher.Popping? && (s.dispatcher.left == 0 || (s.pool.deferred.None? && s.pool.display == []))
    case Disarm => s.dispatcher.Disarming?
    case Recheck => s.dispatcher.Rechecking?
    case KickSubmit(_) => s.dispatcher.KickSubmitting?
    case KickDisarm => s.dispatcher.KickRefused?
    case _ => false
  }

  function DoKick(s: State, step: Step): State
    requires CanKick(s, step)
  {
    match step
    case Dispatch => s.(kick := s.kick.(queued := s.kick.queued - 1), dispatcher := Popping(4))
    case StopPopping => s.(dispatcher := Disarming)
    case Disarm => s.(kick := Disarmed(s.kick), dispatcher := Rechecking)
    case Recheck =>
      if s.pool.deferred.None? && s.pool.display != [] && !s.kick.gate
      then s.(kick := Armed(s.kick), dispatcher := KickSubmitting)
      else s.(dispatcher := Resting)
    case KickSubmit(ok) =>
      if ok then s.(kick := Accepted(s.kick), dispatcher := Resting)
      else s.(kick := Rejected(s.kick), dispatcher := KickRefused)
    case KickDisarm => s.(kick := Disarmed(s.kick), dispatcher := Resting)
  }

  // Session boundaries, run on the Dispatcher between actions.
  predicate CanBound(s: State, step: Step) {
    match step
    case RetireDeferred => s.dispatcher.Resting? && s.pool.deferred.Some?
    case CommitClose => s.dispatcher.Resting?
    case CommitOpen(_) => s.dispatcher.Resting?
    case _ => false
  }

  function ChargeDisplay(s: State, n: nat): State {
    s.(counters := s.counters.(rejected := s.counters.rejected + n),
       ledger := s.ledger.(chargedDisplay := s.ledger.chargedDisplay + n))
  }

  // Retiring the ready ring at a commit, with the charge of reset_display_committed.
  function Retire(s: State, gen: nat, session: bool): State {
    ChargeDisplay(s, DL.UnloggedBytes(s.show.lane.ready))
      .(show := s.show.(lane := DL.Reset(s.show.lane), carry := FRESH, gen := gen,
                        session := session, published := [], formatted := [], delivered := []),
        heard := s.heard.(sessionStart := |s.heard.segments|),
        kick := s.kick.(shifted := s.kick.shifted || s.pool.deferred.Some?))
  }

  // Nothing of an earlier session can still reach the view.
  predicate CleanStart(s: State) {
    s.pool.display == [] && s.pool.deferred.None? && s.show.lane.consumer.None? && s.reader.NoCall?
  }

  function DoBound(s: State, step: Step): State
    requires CanBound(s, step)
  {
    match step
    case RetireDeferred =>
      var d := s.pool.deferred.value;
      ChargeDisplay(s, if d.unlogged then d.len else 0)
        .(pool := s.pool.(deferred := None, refs := DropRef(s.pool.refs, d.block)),
          show := s.show.(session := false), kick := s.kick.(lossy := true))
    case CommitClose => Retire(s, s.show.gen + 1, false)
    case CommitOpen(g) => Retire(s, g, CleanStart(s))
  }

  function Sub(a: nat, b: nat): nat { if b <= a then a - b else 0 }

  // ---- log writer ---------------------------------------------------------------------

  predicate HoldsLease(r: Reader) { !r.NoCall? && r.i.fileLane }

  predicate CanWrite(s: State, step: Step) {
    match step
    case PopRaw => s.writer.Parked? && s.pool.raw != []
    case WriteSome(k) =>
      s.writer.Writing? && s.log.open && 0 < k <= |Payload(s.pool.mem, s.writer.d)| - s.writer.offset
    case ChargeTail =>
      s.writer.Writing? && s.writer.offset < s.writer.d.len && (s.log.stopping || !s.log.open)
    case ReleaseRaw => s.writer.Written? || (s.writer.Writing? && s.writer.offset == s.writer.d.len)
    case OpenLog(_) => s.writer.Parked? && s.admit.closing.None? && s.admit.jobs != [] && s.admit.jobs[0].OpenJob?
    case StartClose => s.writer.Parked? && s.admit.closing.None? && s.admit.jobs != [] && s.admit.jobs[0].CloseJob?
    case CloseFile => s.writer.Parked? && s.admit.closing.Some? && (s.pool.raw == [] || !s.log.open)
    case _ => false
  }

  function DoWrite(s: State, step: Step): State
    requires CanWrite(s, step)
  {
    match step
    case PopRaw =>
      s.(pool := s.pool.(raw := s.pool.raw[1..]), writer := Writing(s.pool.raw[0], 0))
    case WriteSome(k) =>
      var d, offset := s.writer.d, s.writer.offset;
      s.(writer := Writing(d, offset + k),
         log := s.log.(written := s.log.written + Payload(s.pool.mem, d)[offset..offset + k]),
         ledger := s.ledger.(writtenTotal := s.ledger.writtenTotal + k))
    case ChargeTail =>
      var lost := s.writer.d.len - s.writer.offset;
      s.(writer := Written(s.writer.d), log := s.log.(tailCharged := true),
         counters := s.counters.(rejected := s.counters.rejected + lost),
         ledger := s.ledger.(chargedWriter := s.ledger.chargedWriter + lost))
    case ReleaseRaw =>
      s.(pool := s.pool.(refs := DropRef(s.pool.refs, s.writer.d.block)), writer := Parked)
    case OpenLog(ok) =>
      var popped := s.(admit := s.admit.(jobs := s.admit.jobs[1..]));
      if s.log.open then popped    // BUSY
      else if !ok then popped.(log := s.log.(accepting := false))
      else popped.(log := s.log.(open := true, accepting := true, leased := RingText(s.pool.mem, s.pool.raw),
                                 written := [], tailCharged := false),
                       heard := s.heard.(fileStart := Sub(|s.heard.pushed|, FileBytes(s.pool.raw))))
    case StartClose =>
      s.(log := s.log.(accepting := false),
         admit := s.admit.(jobs := s.admit.jobs[1..], closing := Some(s.admit.jobs[0].clean)))
    case CloseFile =>
      s.(log := s.log.(open := false),
         admit := s.admit.(closing := None, underLease := s.admit.underLease || (s.log.open && HoldsLease(s.reader))))
  }

  // ---- ABI thread -----------------------------------------------------------------------

  // LogWriter::open, close and shutdown.
  predicate CanAdmit(s: State, step: Step) {
    match step
    case RequestOpen => s.admit.closer.Idle? && !s.log.accepting
    case CloseAdmission => s.admit.closer.Idle?
    case SeeNoLease => s.admit.closer.Waiting? && !HoldsLease(s.reader)
    case GiveUpClose => s.admit.closer.Waiting?
    case RequestClose => s.admit.closer.Closed?
    case Stop => true
    case _ => false
  }

  // The file is open and no running Close job is about to close it.
  predicate FileStays(s: State) { s.log.open && s.admit.closing.None? }

  function DoAdmit(s: State, step: Step): State
    requires CanAdmit(s, step)
  {
    match step
    case RequestOpen => s.(admit := s.admit.(jobs := s.admit.jobs + [LP.OpenJob]))
    case CloseAdmission =>
      var clean := !LP.Reopens(s.admit.jobs, FileStays(s));
      s.(log := s.log.(accepting := false),
         admit := s.admit.(closer := LP.Waiting(clean), unclean := s.admit.unclean || !clean))
    case SeeNoLease => s.(admit := s.admit.(closer := LP.Closed(s.admit.closer.clean)))
    case GiveUpClose => s.(admit := s.admit.(closer := LP.Idle))
    case RequestClose =>
      s.(admit := s.admit.(closer := LP.Idle, jobs := s.admit.jobs + [LP.CloseJob(s.admit.closer.clean)]))
    case Stop => s.(log := s.log.(stopping := true))
  }

  predicate CanUi(s: State, step: Step) {
    match step
    case DrainUi(_) => s.ui.Away? && DL.WellFormed(s.show.lane)
    case SetOptions(_, _) => s.ui.Away?
    case UiArm => s.ui.UiArming?
    case UiSubmit(_) => s.ui.UiSubmitting?
    case UiDisarm => s.ui.UiRefused?
    case _ => false
  }

  // Unlogged source bytes of the batch the drain caller is reading; a batch counts whole.
  function ActiveUnlogged(l: DL.Lane): nat {
    if l.consumer.Some? && l.consumer.value.batch.unlogged then l.consumer.value.batch.source else 0
  }

  // What a drain throws away: a batch of another session it was reading, and batches of other
  // sessions at the head of the ring.
  function Discards(l: DL.Lane, capacity: nat, gen: nat): nat {
    if capacity == 0 then 0
    else
      var d := DL.DropStaleActive(l, gen);
      (if d.consumer.None? then ActiveUnlogged(l) + DL.UnloggedBytes(l.ready[..DL.Stale(l.ready, gen)]) else 0)
  }

  // What it finishes.
  function Finishes(l: DL.Lane, capacity: nat, gen: nat): nat
    requires DL.WellFormed(l)
  {
    if DL.Drain(l, capacity, gen).completed then ActiveUnlogged(DL.Activate(DL.DropStaleActive(l, gen), gen)) else 0
  }

  // The drain caller still holds part of a batch of another session.
  predicate StaleActive(show: Show) {
    show.lane.consumer.Some? && show.lane.consumer.value.batch.gen != show.gen
  }

  function DoUi(s: State, step: Step): State
    requires CanUi(s, step)
  {
    match step
    case DrainUi(capacity) =>
      var r := DL.Drain(s.show.lane, capacity, s.show.gen);
      s.(show := s.show.(lane := r.lane, delivered := s.show.delivered + r.output),
         ui := if r.completed then UiArming else Away,
         ledger := s.ledger.(takenUnlogged := s.ledger.takenUnlogged + Finishes(s.show.lane, capacity, s.show.gen),
                             dropped := s.ledger.dropped + Discards(s.show.lane, capacity, s.show.gen)),
         kick := s.kick.(shifted := s.kick.shifted || StaleActive(s.show)))
    case SetOptions(hex, paused) =>
      s.(show := s.show.(hex := hex, paused := paused),
         ui := if s.show.paused && !paused then UiArming else Away)
    case UiArm =>
      if s.kick.gate
      then s.(ui := Away,
              kick := s.kick.(missed := s.kick.missed || (s.dispatcher.Disarming? && s.pool.deferred.Some?)))
      else s.(ui := UiSubmitting, kick := Armed(s.kick))
    case UiSubmit(ok) =>
      if ok then s.(ui := Away, kick := Accepted(s.kick))
      else s.(ui := UiRefused, kick := Rejected(s.kick))
    case UiDisarm => s.(ui := Away, kick := Disarmed(s.kick))
  }

  // ---- the machine ------------------------------------------------------------------------

  predicate Can(s: State, step: Step) {
    || CanCut(s, step) || CanPublish(s, step) || CanReturn(s, step)
    || CanPop(s, step) || CanFormat(s, step) || CanKick(s, step) || CanBound(s, step)
    || CanWrite(s, step) || CanAdmit(s, step) || CanUi(s, step)
  }

  function Do(s: State, step: Step): State
    requires Can(s, step)
  {
    if CanCut(s, step) then DoCut(s, step)
    else if CanPublish(s, step) then DoPublish(s, step)
    else if CanReturn(s, step) then DoReturn(s, step)
    else if CanPop(s, step) then DoPop(s, step)
    else if CanFormat(s, step) then DoFormat(s, step)
    else if CanKick(s, step) then DoKick(s, step)
    else if CanBound(s, step) then DoBound(s, step)
    else if CanWrite(s, step) then DoWrite(s, step)
    else if CanAdmit(s, step) then DoAdmit(s, step)
    else DoUi(s, step)
  }

  ghost predicate Init(s: State) {
    && |s.pool.refs| == BLOCKS && |s.pool.mem| == BLOCKS
    && (forall b :: 0 <= b < BLOCKS ==> s.pool.refs[b] == 0 && |s.pool.mem[b]| == BLOCK_BYTES)
    && s.pool.display == [] && s.pool.raw == [] && s.pool.deferred == None
    && s.show == Show(DL.NewLane(), FRESH, 0, false, false, false, [], [], [])
    && s.kick == Kick(false, 0, false, false, false)
    && s.log == Log(false, false, false, [], [], false)
    && s.admit == Admission([], LP.Idle, None, false, false)
    && s.counters == Counters(0, 0, 0) && s.ledger == Ledger(0, 0, 0, 0, 0, 0, 0, 0, 0, 0, 0)
    && s.heard == Heard([], [], [], [], 0, 0)
    && s.reader == NoCall && s.writer == Parked && s.dispatcher == Resting && s.ui == Away
  }

  ghost predicate Advances(states: seq<State>, steps: seq<Step>, k: nat)
    requires |states| == |steps| + 1 && k < |steps|
  {
    Can(states[k], steps[k]) && states[k + 1] == Do(states[k], steps[k])
  }

  ghost predicate Run(states: seq<State>, steps: seq<Step>) {
    && |states| == |steps| + 1
    && forall k :: 0 <= k < |steps| ==> Advances(states, steps, k)
  }

  lemma RunShape(states: seq<State>, steps: seq<Step>)
    requires Run(states, steps)
    ensures |states| == |steps| + 1
  {}

  lemma RunStep(states: seq<State>, steps: seq<Step>, k: nat)
    requires Run(states, steps) && k < |steps|
    ensures Can(states[k], steps[k]) && states[k + 1] == Do(states[k], steps[k])
  {
    assert Advances(states, steps, k);
  }

  lemma ExtendRun(states: seq<State>, steps: seq<Step>, step: Step)
    requires Run(states, steps) && Can(states[|steps|], step)
    ensures Run(states + [Do(states[|steps|], step)], steps + [step])
  {
    var longer, script := states + [Do(states[|steps|], step)], steps + [step];
    forall k | 0 <= k < |script| ensures Advances(longer, script, k) {
      if k < |steps| { assert Advances(states, steps, k); }
    }
  }

  function NewState(): State {
    State(
      Pool(seq(BLOCKS, _ => 0), seq(BLOCKS, _ => seq(BLOCK_BYTES, _ => 0)), [], [], None),
      Show(DL.NewLane(), FRESH, 0, false, false, false, [], [], []),
      Kick(false, 0, false, false, false), Log(false, false, false, [], [], false),
      Admission([], LP.Idle, None, false, false),
      Counters(0, 0, 0), Ledger(0, 0, 0, 0, 0, 0, 0, 0, 0, 0, 0), Heard([], [], [], [], 0, 0),
      NoCall, Parked, Resting, Away)
  }

  lemma NewIsInit()
    ensures Init(NewState())
  {}
}
