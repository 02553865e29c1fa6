# xcom_core in Dafny

This project models the serial core of xcom (`xcom_core`, with two pieces around it: the receive
view of the ImGui bridge and the periodic timer) and proves what its comments and design promise:
bytes from the port are written, shown or counted; the display shows the received stream in order;
the port lifecycle always comes to rest; the lock-free structures do what a lock would; and a file
is replaced entirely or not at all.

`dafny verify dfyconfig.toml` checks everything.

## How the model is built

A step is a shared action of one thread (an atomic load or store, a CAS, a ring push, a WriteFile)
with the thread-local work around it, or a few shared actions taken together where "Left out" says
so. The steps of different threads interleave in any order, sequentially consistent. A run is
a sequence of states and steps; the main results hold in every state of every run. Fields marked
"history" in the state types record what has happened so far; no step depends on them. Code that one thread
executes alone (the formatter, the display lane, SerialAo, the job ring, the file writer, the view,
the timer loop, the bodies of `rx_ingress` and `rx_kick_action`) is a class whose methods are proved equal to the functions
the machines use.

| module | what it holds |
|---|---|
| `Bytes` | bytes, id sets, a pigeonhole bound |
| `Normaliser`, `DisplayText` | `format_payload`: the streaming ANSI/CRLF machine and the hex view; what a reader sees of a byte stream, without the machine |
| `FixedPool` | the tagged lock-free free list, at the grain of loads, link accesses and CASes |
| `ErrorRing` | the sequence-numbered ring, with its 32-bit arithmetic |
| `DisplayLane` | the 32 display buffers between Dispatcher and drain caller |
| `RxPath` | the receive path as one machine: read thread, Dispatcher, log writer with its Open and Close jobs, ABI caller |
| `RxRefs`, `RxLedger`, `RxStreams`, `RxKick` | what that machine keeps: reference counts and the file reserve; the byte ledger; the two output streams; the wake token |
| `RxFile`, `RxLoss` | when a segment can meet a closed log file, and when a byte can be lost uncounted; the exact conditions and a run of each |
| `RxDelivery` | from the callbacks to the file and the view, byte for byte |
| `RxIngress`, `RxReceive` | `rx_ingress` as the read thread executes it and `rx_kick_action` as the Dispatcher does, each a run of that machine |
| `SerialAo`, `SerialSystem`, `SerialCalls` | the twelve-edge table and its actions; the port lifecycle with its ABI caller and fault reporters; what its calls achieve |
| `SessionWriter`, `TxPath`, `TxSends`, `TxBytes` | the write worker's job ring; the 32 transmit blocks and session fencing; that sends are written, in order; that their bytes are |
| `LeaseProtocol`, `Completions`, `RawWriter`, `FileJobs` | the log writer: append leases, completions, the raw segment loop, file replacement |
| `ReceiveView`, `PeriodicTimer` | the incremental line index; the clock and the deadline grid |

## Where the code falls short of its own account

Each of these is proved on a concrete run or input, next to the condition under which the code does
keep the promise.

- The comment in `rx_format_block` (xcom_core/src/ao/xcom_ao.cpp:204-208) says that resuming the
  display submits a kick for the deferred block. `RxKick.RetryCanBeMissed`: if the resume comes
  after `rx_kick_action` has given up on the block and before it disarms the gate, the kick is
  dropped and nothing retries. `RxKick.MissedIff`: that is the only way a retry is missed, and
  `RxKick.NoLostWakeup`: at rest, with no refused kick and no session boundary since, a deferred
  block the display could take has its kick if and only if its retry was not missed.
- The receive path means every byte to be written, shown or counted. `RxLoss.LossCanBeSilent`: an
  unlogged batch that the drain caller has begun is thrown away uncounted when the caller drains
  again after a session boundary. `RxLoss.DroppedIff`: exactly such a drain loses bytes.
  `RxLoss.UnfinishedBatchIsLost`: after any run, a close commit and a drain lose bytes if and only
  if the caller was in the middle of an unlogged batch. `RxLoss.NoSilentLoss`: a caller that
  finishes its batch before every boundary loses none.
- `queue_open` loads `port_state` before `last_open_result` (xcom_core/src/abi/xcom_abi.cpp:230-237).
  `SerialSystem.ImpatientCallerGetsStuck`: a second open started while the first is queued can pass
  both checks; its Open then finds no edge, and from there on every open is refused with BUSY
  (`StuckForever`). `StuckIff`: the sentinel is stuck if and only if some Open was dispatched to a
  port that was neither closed nor faulted. `SentinelIsExact`: a caller that waits while the result
  is BUSY never sees this; `OneOpenAtATime` holds for every caller.
- `LogWriter::close` waits for every lease, but `LeaseProtocol.QueuedOpenBreaksClose`: behind a
  timed-out `open` whose job is still queued, admission reopens and the Close job closes the file
  under a lease. `LeaseProtocol.CloseBreaksIff`: a close can return with a lease out if and only if,
  when it begins, some queued Open job will find the file closed. `RxFile.NoFileBranchIsReached`:
  the leased segment then reaches the branch of `process_rx_ref` that its comment takes to be
  unreachable. `RxFile.CleanClosesHold`: a caller that begins no such close never gets there.
- `generation` is not a session number: `SerialSystem.CloseTakesNextGeneration`. Stale transmits are
  fenced all the same (`StaleWritesAreFenced`, `TxPath.NoWriteAcrossSessions`).
- Two 32-bit limits are exact: `FixedPool.TagWrapBreaksPool` (2^32 head changes inside one
  allocation attempt) and `SessionWriter.WrapStrandsJobs` (2^32 jobs in one session, because
  `try_pop` compares positions with `>=` where `try_enqueue` subtracts them); `TxPath.StrandedIff`
  says which blocks the second one loses, and when.
- An inserted control sequence is invisible except exactly between a CR and its LF:
  `Normaliser.EscapeErasure`.

## Model

| member | source | states |
|---|---|---|
| Normaliser.NormConcat | xcom_core/src/ao/xcom_ao.cpp:85-190 | a stream cut anywhere into blocks, with the state carried over the cut, gives the text and the final state of the uncut stream |
| Normaliser.NormClean | xcom_core/src/ao/xcom_ao.cpp:93-190 | from every carried state the text is no longer than its input and holds no ESC, no CR and no control byte but LF and TAB |
| Normaliser.NormIdempotent | xcom_core/src/ao/xcom_ao.cpp:93-190 | normalising normalised text from the ground state changes nothing |
| Normaliser.ControlSequenceIsSilent | xcom_core/src/ao/xcom_ao.cpp:116-160 | a control sequence of section 5.4 of ECMA-48 at a ground point yields no text and clears only the CR carry |
| Normaliser.EscapeErasure | xcom_core/src/ao/xcom_ao.cpp:93-190 | inserting such a sequence at a ground point leaves the output unchanged if and only if it does not stand between a CR and the LF it pairs with |
| Normaliser.LineStartIsSilent | xcom_core/src/ao/xcom_ao.cpp:186-190 | the line-start flag is carried but never decides any output |
| Normaliser.HexRoundTrip | xcom_core/src/ao/xcom_ao.cpp:62-84 | reading the hex view back gives the received bytes |
| DisplayText.NormIsShown | xcom_core/src/ao/xcom_ao.cpp:85-190 | from a fresh carry the text of every byte stream is what a front-to-back reading gives: CRLF, CR and LF each become one LF, escape sequences of every kind and other control bytes vanish, all else passes |
| DisplayText.OtherSequenceIsSilent | xcom_core/src/ao/xcom_ao.cpp:116-145 | two-character escapes and operating system commands ended by BEL or by ESC and a byte yield no text, end at ground and clear only the CR carry |
| DisplayText.HexAt | xcom_core/src/ao/xcom_ao.cpp:62-84 | byte i of the hex view is two digits, high half first, with one space before the next |
| Normaliser.Formatter.FormatText | xcom_core/src/ao/xcom_ao.cpp:85-190 | the block loop with its CRLF look-ahead produces the text and carry of the one-byte machine; its no-room branch is dead |
| Normaliser.Formatter.FormatHex | xcom_core/src/ao/xcom_ao.cpp:62-84 | the hex loop writes the groups that fit, without a trailing space, and touches no carry |
| FixedPool.TagIdentifiesHead | xcom_core/src/foundation/fixed_pool.hpp:54-60 | a successful allocation CAS saw the current head and its current link, although owners overwrite link bytes |
| FixedPool.PoolSafe | xcom_core/src/foundation/fixed_pool.hpp:41-83 | in every state of every interleaving, walking the links visits each unowned block once and stops, and every other block has one owner |
| FixedPool.CallsMoveOneBlock | xcom_core/src/foundation/fixed_pool.hpp:41-83 | allocate hands out a block nobody owned, release takes back the caller's own, and no other ownership moves |
| FixedPool.NullOnlyWhenEmpty | xcom_core/src/foundation/fixed_pool.hpp:53-65 | allocate gives up only on a head loaded while every block had an owner |
| FixedPool.UndisturbedCalls | xcom_core/src/foundation/fixed_pool.hpp:41-83 | from every reachable state an undisturbed allocate takes the front of the free list, failing only on an empty one, and an undisturbed release puts the block there |
| FixedPool.TagWrapBreaksPool | xcom_core/src/foundation/fixed_pool.hpp:103-111 | after exactly 2^32 head changes inside one attempt the CAS succeeds on a stale link and an owned block becomes the head |
| ErrorRing.ProbeVerdict | xcom_core/src/runtime/xcom_core.hpp:550-592 | the signed 32-bit difference is negative exactly when 128 claimed entries are untaken at the producer's position, and zero exactly when the position is claimable or being filled |
| ErrorRing.ClaimTakesNext | xcom_core/src/runtime/xcom_core.hpp:550-592 | the 32-bit CAS succeeds only for the next position, and only while its slot is free |
| ErrorRing.RingIsBoundedFifo | xcom_core/src/runtime/xcom_core.hpp:541-619 | what was taken is, untorn and in claim order, the front of what was claimed; at most 128 entries wait |
| ErrorRing.DropOnlyWhenFull | xcom_core/src/runtime/xcom_core.hpp:550-619 | an entry is dropped only when 128 claimed entries are untaken, and no step changes a published entry before it is taken |
| ErrorRing.UndisturbedCalls | xcom_core/src/runtime/xcom_core.hpp:541-619 | from every reachable state an undisturbed take returns the front entry exactly if it is published, and an undisturbed push appends its entry, published, exactly if fewer than 128 wait, and else counts one drop |
| DisplayLane.PushReadyHasRoom | xcom_core/src/runtime/xcom_core.hpp:290-308 | while the producer holds a buffer the ready ring has a free place |
| DisplayLane.DrainPartition | xcom_core/src/runtime/xcom_core.hpp:363-404 | a drain keeps each of the 32 buffers in exactly one of pool, producer, ready ring and consumer |
| DisplayLane.DrainStream | xcom_core/src/runtime/xcom_core.hpp:363-404 | for any capacity a drain hands out the front of the unread text and leaves exactly the rest |
| DisplayLane.DrainAmount | xcom_core/src/runtime/xcom_core.hpp:363-404 | a drain with room finds text exactly if the session has a batch left, hands out the smaller of the room and the rest of that batch, finishes it exactly if it fits, and reports its arrival time |
| DisplayLane.DrainEmpties | xcom_core/src/runtime/xcom_core.hpp:363-404 | a caller whose buffer holds any batch empties the lane in one call for each batch and gets the whole unread text |
| DisplayLane.ResetPartition | xcom_core/src/runtime/xcom_core.hpp:336-352 | a session reset returns every queued buffer and keeps the partition |
| DisplayLane.Display.TryAcquire | xcom_core/src/runtime/xcom_core.hpp:274-283 | fails exactly on an empty pool, otherwise moves one buffer to the producer |
| DisplayLane.Display.ReleaseBuf | xcom_core/src/runtime/xcom_core.hpp:284-289 | moves a buffer from the producer back to the pool |
| DisplayLane.Display.PushReady | xcom_core/src/runtime/xcom_core.hpp:290-308 | always succeeds for a held buffer and appends it to the ring |
| DisplayLane.Display.ResetReady | xcom_core/src/runtime/xcom_core.hpp:336-352 | pops the whole ring, and reports the batches and the unlogged source bytes in it |
| DisplayLane.Display.PopCurrent | xcom_core/src/runtime/xcom_core.hpp:377-388 | releases stale batches until one of the current generation becomes active |
| DisplayLane.Display.CopyActive | xcom_core/src/runtime/xcom_core.hpp:389-404 | copies the smaller of the room and the rest of the batch, and returns the buffer exactly when that finishes it |
| DisplayLane.Display.DrainInto | xcom_core/src/runtime/xcom_core.hpp:363-404 | does what the drain function says, hands out as much of the session's front batch as fits with its arrival time, and keeps the partition |
| RxRefs.RingHasRoom | xcom_core/src/foundation/rx_block_lane.hpp:207-224 | a ring without some block of the pool has a free place, so neither asserted push can fail |
| RxRefs.CountsAreHolders | xcom_core/src/foundation/rx_block_lane.hpp:148-228 | in every reachable state each reference count is the number of holders, and a block is free exactly when it has none |
| RxRefs.AssertionsHold | xcom_core/src/foundation/rx_block_lane.hpp:183-228 | both asserted pushes find room, no release underflows, and a claimed block was held by nobody |
| RxRefs.PayloadStable | xcom_core/src/foundation/rx_block_lane.hpp:176-228 | no step changes the bytes of a block that anyone holds |
| RxRefs.FileLaneKeepsItsReserve | xcom_core/src/foundation/rx_block_lane.hpp:148-172 | the display side keeps at most 32 file-backed blocks; a failed file-lane claim with no display-only block out leaves 96 blocks with the writer alone |
| RxLedger.RunKeepsBalance | xcom_core/src/runtime/xcom_core.cpp:1370-1516 | in every reachable state bytes delivered, counted, charged, written, queued and taken balance lane by lane |
| RxLedger.EveryByteAccounted | xcom_core/src/runtime/xcom_core.hpp:939-1013 | every byte delivered is in exactly one of: a log file, a drained batch, normalised to nothing, the loss counter, still on its way, or an unlogged batch thrown away by a drain; nothing is on its way once the lanes are empty |
| RxLoss.DroppedIff | xcom_core/src/runtime/xcom_core.hpp:363-388 | a step loses bytes uncounted if and only if it is a drain with room whose caller holds part of an unlogged batch of another session; it loses that batch and moves no counter |
| RxLoss.UnfinishedBatchIsLost | xcom_core/src/runtime/xcom_core.hpp:326-352 | after any run, a close commit and a drain lose the caller's batch if and only if it was unlogged and unfinished, and the close charges only the batches on the ring |
| RxLoss.NoSilentLoss | xcom_core/src/runtime/xcom_core.hpp:939-1013 | for a caller that finishes its unlogged batch before every session boundary, every byte delivered is in a log file, was drained, normalised to nothing, is counted as lost or is still on its way |
| RxLoss.LossCanBeSilent | xcom_core/src/runtime/xcom_core.hpp:371-374 | a run that delivers two bytes, shows one, and has neither written nor counted the other, nor still on its way |
| RxFile.ClosedUnderLeaseIff | xcom_core/src/io/log_writer.cpp:705-717 | the file is closed under a lease exactly by a Close job that meets one at its end, and only by one whose close began while a queued Open could reopen the file |
| RxFile.CleanClosesHold | xcom_core/src/io/log_writer.cpp:288-316 | a caller that begins no close while a queued Open could reopen the file never has it closed under a lease |
| RxFile.NoSegmentWithoutFile | xcom_core/src/io/log_writer.cpp:439-451 | a tail is charged only when stopping, or without a file after it was closed under a lease by a close begun while a queued Open could reopen it |
| RxFile.FileIsLosslessAndOrdered | xcom_core/src/io/log_writer.cpp:429-509 | while no tail was given up the file, followed by what the writer and the raw ring hold, is the leased byte stream in order, and a close leaves all of it in the file; before stopping no tail is given up if every close began with no queued Open that could reopen the file |
| RxFile.WriterCanFinish | xcom_core/src/io/log_writer.cpp:429-509 | from every reachable state of an open file the writer alone can empty the raw ring, and if no tail was given up the file then holds every leased byte |
| RxFile.NoFileBranchIsReached | xcom_core/src/io/log_writer.cpp:440-450 | a run in which a leased segment meets a closed file and is charged as loss although nothing is stopping |
| RxStreams.FormatFits | xcom_core/src/ao/xcom_ao.cpp:211-262 | any block formats into one display buffer in either view |
| RxStreams.NothingQueuedIsRefusedOrStale | xcom_core/src/ao/xcom_ao.cpp:250-262 | push_ready is never refused after the carry has advanced, and every queued batch carries the current generation |
| RxStreams.DisplayLosesNothing | xcom_core/src/ao/xcom_ao.cpp:199-336 | in a session begun with empty lanes every published byte was formatted once in order or waits, and all text was drained in order or is unread |
| RxStreams.DisplayIsPrefixOfNormalised | xcom_core/src/ao/xcom_ao.cpp:199-336 | in the text view the drained output is a prefix of the one-shot normalisation of everything published, and the rest is named exactly |
| RxDelivery.CallsAreDelivered | xcom_core/src/runtime/xcom_core.cpp:1370-1516 | the history of callbacks holds the bytes each one delivered, in order |
| RxDelivery.FileHoldsWhatWasDelivered | xcom_core/src/runtime/xcom_core.cpp:1404-1470 | what the file-lane callbacks delivered, less charged tails, is in order what was put on the raw ring and what still has to be; the leased stream is its end since the file was opened, and the file holds that unaltered from the first byte, all of it at a close, while no tail was given up |
| RxDelivery.FileStartsWhenOpened | xcom_core/src/io/log_writer.cpp:641-661 | a file opened while none was closed under a lease begins with the next byte put on the raw ring |
| RxDelivery.DisplayIsGivenWhatWasDelivered | xcom_core/src/runtime/xcom_core.cpp:1404-1516 | what the callbacks delivered, less charged tails, is in order the published pieces and what is not yet published; the display stream is the pieces shown, whole and in order; a piece not shown had the file lane; the read thread's charges are exactly the rest |
| RxDelivery.TextShowsWhatWasDelivered | xcom_core/src/ao/xcom_ao.cpp:199-336 | in the text view the drained text is the front of what a reader sees of the delivered pieces given to the display |
| RxDelivery.HexShowsWhatWasDelivered | xcom_core/src/ao/xcom_ao.cpp:199-336 | in the hex view the drained text is the front of the dump of the blocks formatted, and these are the front of the delivered pieces given to the display |
| RxDelivery.FormatsInChosenView | xcom_core/src/abi/xcom_abi.cpp:505-530 | every block is formatted in the view chosen last before |
| RxKick.OneKick | xcom_core/src/runtime/xcom_core.hpp:187-204 | the gate is set exactly when one holder has the token, so the static event is never queued twice |
| RxKick.NoLostWakeup | xcom_core/src/ao/xcom_ao.cpp:286-336 | at rest with no kick refused a waiting display block has a queued kick; a deferred block the display could take, with no session boundary since, has one if and only if its retry was not missed |
| RxKick.MissedIff | xcom_core/src/abi/xcom_abi.cpp:518-530 | a retry is missed exactly when it meets a set gate while the action has deferred its block and is about to disarm |
| RxKick.RetryCanBeMissed | xcom_core/src/abi/xcom_abi.cpp:518-530 | a run in which a resume drops its kick and the deferred block stays although nothing was refused and the display runs |
| RxIngress.SegmentRun | xcom_core/src/runtime/xcom_core.cpp:1404-1470 | claiming, publishing and counting one piece is a run of the machine with exactly the stated effect |
| RxIngress.ReadThread.TryAlloc | xcom_core/src/foundation/rx_block_lane.hpp:148-172 | fails exactly on an empty pool, and grants the display a share exactly when the reserve survives |
| RxIngress.ReadThread.Publish | xcom_core/src/foundation/rx_block_lane.hpp:197-228 | one reference and one descriptor per lane, the display copy tagged when there is no file lane |
| RxIngress.ReadThread.TakeSegment | xcom_core/src/runtime/xcom_core.cpp:1404-1470 | one turn of the loop moves the next piece of at most 4096 bytes into a block, appends it unaltered to the leased and the published stream as lane and margin say, and is a run of the machine |
| RxIngress.ReadThread.CutAll | xcom_core/src/runtime/xcom_core.cpp:1404-1470 | the loop cuts the data in order until it is used up or no block is free |
| RxIngress.ReadThread.Finish | xcom_core/src/runtime/xcom_core.cpp:1472-1516 | charges what found no block, counts the display backlog, and leaves the gate set exactly if it was or a kick for accepted bytes went through |
| RxIngress.ReadThread.Deliver | xcom_core/src/runtime/xcom_core.cpp:1370-1516 | the whole call is a run of the machine in which every byte of the callback is accepted or charged, the accepted ones are appended unaltered to the file's stream on the file lane and to the display's without it, it reports that all was accepted exactly when nothing was charged, and the gate is set afterwards exactly if it was or a kick for accepted bytes went through |
| RxReceive.Receiver.Format | xcom_core/src/ao/xcom_ao.cpp:199-264 | a block is refused only by a paused view or an empty buffer pool, and then before the carry has moved; otherwise its text, in the current view, is queued with its source length and tag, or the buffer handed back when there is none, and the carry is what the formatter leaves |
| RxReceive.Receiver.Next | xcom_core/src/ao/xcom_ao.cpp:293-302 | takes the deferred block, or with none the first of the ring, and leaves the rest in order |
| RxReceive.Receiver.TakeTurn | xcom_core/src/ao/xcom_ao.cpp:293-328 | one turn takes one waiting block and releases it formatted, or defers it if it could not |
| RxReceive.Receiver.Wrap | xcom_core/src/ao/xcom_ao.cpp:330-335 | disarms, and has one new kick queued exactly for blocks left on the ring with nothing deferred, unless refused |
| RxReceive.Receiver.KickAction | xcom_core/src/ao/xcom_ao.cpp:286-336 | the whole action is a run of the machine that formats four of the waiting blocks, or all if there are fewer, unless one is refused, and leaves one deferred only if the view is paused or out of buffers |
| SerialAo.TableIsNext | xcom_core/src/ao/xcom_ao.cpp:519-576 | scanning the twelve rows in order finds exactly the edge of an order-independent case split |
| SerialAo.DoOpenResult | xcom_core/src/ao/xcom_ao.cpp:711-744 | an Open that finds an edge ends OPEN exactly on native success without a cancel, CLOSED exactly on native failure, CLOSING exactly on an accepted cancel; one that finds none changes only the cancel flag |
| SerialAo.DoCloseResult | xcom_core/src/ao/xcom_ao.cpp:746-760 | a Close always ends CLOSED, published, with nothing live or latched |
| SerialAo.DoFaultResult | xcom_core/src/ao/xcom_ao.cpp:762-789 | a Fault ends the live session in FAULT, or in CLOSED if it was closing, and leaves a dead port as it is |
| SerialAo.SessionEndsByClose | xcom_core/src/ao/xcom_ao.cpp:711-789 | while a session is live no action ends it or changes its generation without running owner_close |
| SerialAo.Ao.Find | xcom_core/src/ao/xcom_ao.cpp:563-576 | the lookup loop returns the first matching row |
| SerialAo.Ao.Run | xcom_core/src/ao/xcom_ao.cpp:599-664 | the effect of each edge action and the state it really leads to |
| SerialAo.Ao.Fire | xcom_core/src/ao/xcom_ao.cpp:686-709 | one transition, publishing before or after its action as the row says |
| SerialAo.Ao.HandleOpen | xcom_core/src/ao/xcom_ao.cpp:711-744 | the Open action, from any settled port to a settled port |
| SerialAo.Ao.HandleClose | xcom_core/src/ao/xcom_ao.cpp:746-760 | the Close action, ending CLOSED |
| SerialAo.Ao.HandleFault | xcom_core/src/ao/xcom_ao.cpp:762-789 | the Fault action, from any settled port to a settled port |
| SerialSystem.PortAlwaysAtRest | xcom_core/src/ao/xcom_ao.cpp:668-789 | between actions, over all runs: never OPENING; CLOSING has its Close queued; live exactly when OPEN or CLOSING; port_state differs only as a latched FAULT, which implies live; owner_open never over a live session |
| SerialSystem.SentinelIsExact | xcom_core/src/abi/xcom_abi.cpp:229-281 | for a caller that waits out BUSY, BUSY means exactly one Open is on its way, and dispatching it finds an edge and resolves the result |
| SerialSystem.OneOpenAtATime | xcom_core/src/abi/xcom_abi.cpp:229-281 | for every caller at most one Open is on its way, and while it is the result says BUSY |
| SerialSystem.OpenResolvesIff | xcom_core/src/ao/xcom_ao.cpp:711-744 | for every caller, a dispatched Open resolves the sentinel if and only if the port is closed, faulted or has a latched fault |
| SerialSystem.ImpatientCallerGetsStuck | xcom_core/src/abi/xcom_abi.cpp:229-281 | a run in which a second open passes both checks and leaves the sentinel BUSY with no Open on its way |
| SerialSystem.StuckIff | xcom_core/src/ao/xcom_ao.cpp:711-744 | over any run the sentinel says BUSY with no Open on its way if and only if some Open was dispatched to a port with no edge for it |
| SerialSystem.StuckForever | xcom_core/src/abi/xcom_abi.cpp:236-247 | from such a state no run ever leaves it |
| SerialSystem.CancelledOpenIsNotPublished | xcom_core/src/ao/xcom_ao.cpp:734-743 | a cancel seen at the exchange keeps the dispatched Open from ever publishing OPEN |
| SerialSystem.CloseTakesNextGeneration | xcom_core/src/ao/xcom_ao.cpp:629-656 | a close takes the generation number the next open will take |
| SerialSystem.StaleWritesAreFenced | xcom_core/src/runtime/xcom_core.cpp:273-285 | two moments that read OPEN with equal generations belong to one uninterrupted session |
| SerialCalls.CloseCallCloses | xcom_core/src/abi/xcom_abi.cpp:383-435 | from every reachable state xcom_close returns at once exactly on a port that reads CLOSED with no open pending; else it queues one Close, cancels a pending open, and once the queue has been dispatched the port is closed, nothing is live, and owner_close has run if a session was |
| SerialCalls.QueueCanBeDispatched | xcom_core/src/ao/xcom_ao.cpp:711-789 | from every port at rest any number of the queued signals can be dispatched, whatever the native calls do |
| SerialCalls.OpenCallOpens | xcom_core/src/abi/xcom_abi.cpp:229-281 | from every reachable state queue_open refuses exactly a pending open or a port neither CLOSED nor FAULT; else dispatching the queue opens the port exactly on native success without a cancel, with the native result |
| SerialCalls.GivenUpOpenStaysShut | xcom_core/src/abi/xcom_abi.cpp:296-330 | the cancel flag of a caller that gives up waiting is still set when its Open is dispatched, and if the exchange finds it OPEN is not stored |
| SerialCalls.FaultEndsSession | xcom_core/src/ao/xcom_ao.cpp:762-789 | an accepted fault ends the session once the queue has been dispatched |
| SerialCalls.RefusedFaultIsKept | xcom_core/src/runtime/xcom_core.cpp:807-833 | after a refused fault the port reads FAULT with the fault latched until owner_close has run |
| SessionWriter.EnqueueTestIsExact | xcom_core/src/runtime/xcom_core.cpp:187-198 | the subtracting test refuses exactly on 256 waiting jobs, at positions of any age |
| SessionWriter.PopTestIsExactUntilWrap | xcom_core/src/runtime/xcom_core.cpp:201-211 | the comparing test refuses exactly when nothing waits or only the write position has wrapped |
| SessionWriter.WrapStrandsJobs | xcom_core/src/runtime/xcom_core.cpp:201-211 | the 2^32nd job of a session is refused although it waits |
| SessionWriter.Writer.TryEnqueue | xcom_core/src/runtime/xcom_core.cpp:187-198 | appends the job exactly when fewer than 256 wait |
| SessionWriter.Writer.TryPop | xcom_core/src/runtime/xcom_core.cpp:201-211 | takes the oldest waiting job, with the exact refusal condition |
| SessionWriter.Writer.ReleaseLeftover | xcom_core/src/runtime/xcom_core.cpp:226-236 | gives every waiting job back once and in order |
| TxPath.RingNeverFull | xcom_core/src/runtime/xcom_core.cpp:173-198 | with 32 blocks the 256-slot ring never fills |
| TxPath.EveryBlockHasOnePlace | xcom_core/src/ao/xcom_ao.cpp:342-453 | in every reachable state each block is in exactly one of pool, caller, send event, template event, template, Dispatcher, job ring, worker, stranded by a wrapped ring; and a running worker's ring takes every job offered |
| TxPath.StrandedIff | xcom_core/src/runtime/xcom_core.cpp:201-236 | blocks are stranded exactly by an owner_close whose session's write position has wrapped and whose read position has not, and then those of every job still on the ring |
| TxPath.ShortSessionsStrandNone | xcom_core/src/runtime/xcom_core.cpp:226-236 | while every session enqueues fewer than 2^32 jobs no block is ever stranded |
| TxPath.NoWriteAcrossSessions | xcom_core/src/runtime/xcom_core.cpp:273-290 | a payload reaches the backend only in the session it was accepted in, while that session is open |
| TxSends.SendsAreWrittenInOrder | xcom_core/src/ao/xcom_ao.cpp:427-453 | while the port reads OPEN the session's accepted sends are, in order, those given to the backend, the one the worker checks, the job ring, the one in the Dispatcher's hand and the queued events |
| TxSends.EverySendCanBeWritten | xcom_core/src/runtime/xcom_core.cpp:246-307 | from every reachable state of an open port, below 2^32 jobs, Dispatcher and worker alone can go on until every accepted send has been given to the backend in order |
| TxSends.TickCanBeWritten | xcom_core/src/ao/xcom_ao.cpp:391-425 | the copy of the template an auto-send tick takes can be driven to the backend, whole and in its session |
| TxSends.AcceptedAreTheSends | xcom_core/src/abi/xcom_abi.cpp:446-500 | the accepted payloads are, byte for byte and in order, those the caller sent and that were accepted |
| TxSends.TemplateIsLastRequest | xcom_core/src/ao/xcom_ao.cpp:342-389 | the auto-send template is at all times what the last valid request handled asked for |
| TxBytes.BackendGetsTheBytes | xcom_core/src/runtime/xcom_core.cpp:273-290 | every write is given exactly the bytes its payload was made of, the block keeps them while the write goes on, and the template keeps its own |
| LeaseProtocol.CloseDrainIsFinal | xcom_core/src/io/log_writer.cpp:265-316 | once a close begun while no queued Open could reopen the file has seen no lease, none is held and none can be granted until its Close job has run |
| LeaseProtocol.CloseBreaksIff | xcom_core/src/io/log_writer.cpp:288-316 | from any reachable state with a thread outside the protocol, a close can return true and still leave a lease out if and only if some queued Open job will find the file closed |
| LeaseProtocol.FileClosedUnderLease | xcom_core/src/io/log_writer.cpp:705-717 | from any such state some run closes the file while a thread holds a lease |
| LeaseProtocol.QueuedOpenBreaksClose | xcom_core/src/io/log_writer.cpp:641-661 | such a state is reached by one open whose job is still queued |
| Completions.ExactlyOnce | xcom_core/src/io/log_writer.cpp:247-263 | accepted requests complete once each and in order, at most 32 are unfinished or unread, and the asserted push finds room |
| Completions.EveryRequestCanComplete | xcom_core/src/io/log_writer.cpp:247-263 | from every reachable state writer and caller can go on until every accepted request has been returned in order and no reservation is out |
| RawWriter.KeptIsOffered | xcom_core/src/io/log_writer.cpp:452-470 | a segment is cut only where the writer was stopped before the file system had taken all of it |
| RawWriter.Log.ProcessRxRef | xcom_core/src/io/log_writer.cpp:429-483 | every byte of a segment ends in the file or in the loss counter |
| RawWriter.Log.FlushBeforeClose | xcom_core/src/io/log_writer.cpp:500-509 | if the file system takes each segment before a stop, all of them reach the file in order before it closes |
| FileJobs.JobKeepsReportsTrue | xcom_core/src/io/log_writer.cpp:552-635 | after any job, whatever calls failed, every file but the job's temporary is what the reported statuses say |
| FileJobs.ReportsDescribeTheDisk | xcom_core/src/io/log_writer.cpp:552-735 | over any run of jobs a file never used as a temporary holds exactly the bytes of the last atomic write or committed stream of appends that reported OK |
| FileJobs.OnlyReportedSuccessReplaces | xcom_core/src/io/log_writer.cpp:167-186 | a file no reported success names is untouched by the whole run |
| FileJobs.AtomicSucceedsIff | xcom_core/src/io/log_writer.cpp:552-577 | an atomic write reports OK exactly if every call it needs succeeds and no stream has its temporary or target open; then the file holds the data and no temporary is left |
| FileJobs.StreamSucceeds | xcom_core/src/io/log_writer.cpp:579-621 | a streamed replacement whose calls succeed reports OK throughout and leaves the pieces, in order, in the destination |
| FileJobs.Writer.WriteAll | xcom_core/src/io/log_writer.cpp:511-550 | appends the part of the data that the calls took, and reports OK exactly when that is all of it |
| FileJobs.Writer.Atomic | xcom_core/src/io/log_writer.cpp:552-577 | one atomic write against any failures |
| FileJobs.Writer.Begin | xcom_core/src/io/log_writer.cpp:579-599 | opens the stream's temporary, or reports why not |
| FileJobs.Writer.Append | xcom_core/src/io/log_writer.cpp:601-611 | extends the stream, or ends it after a failed write |
| FileJobs.Writer.Commit | xcom_core/src/io/log_writer.cpp:613-621 | replaces the destination or drops the stream |
| FileJobs.Writer.Cancel | xcom_core/src/io/log_writer.cpp:623-635 | ends the stream; a second abort is OK |
| ReceiveView.RescanIsLineStarts | xcom_lua/native/xcom_imgui/xcom_imgui_bridge.cpp:4526-4545 | the index lists exactly the line starts in increasing order |
| ReceiveView.TrimIsRescan | xcom_lua/native/xcom_imgui/xcom_imgui_bridge.cpp:4607-4617 | erasing, shifting and repairing the index is rescanning the trimmed text |
| ReceiveView.View.TrimTo | xcom_lua/native/xcom_imgui/xcom_imgui_bridge.cpp:4607-4617 | keeps the suffix, its index and its place in the lifetime stream |
| ReceiveView.View.SetWindow | xcom_lua/native/xcom_imgui/xcom_imgui_bridge.cpp:4463-4497 | clamps the limit, trims at once, and keeps index and base true |
| ReceiveView.View.SetText | xcom_lua/native/xcom_imgui/xcom_imgui_bridge.cpp:4499-4549 | holds the first bytes up to the limit, freshly indexed; empty text resets the view |
| ReceiveView.View.Append | xcom_lua/native/xcom_imgui/xcom_imgui_bridge.cpp:4559-4618 | indexes only the new bytes, defers the trim during a drag up to the slack, lands a trim exactly on the limit, and keeps the text a suffix of the lifetime stream |
| ReceiveView.View.ReleaseDrag | xcom_lua/native/xcom_imgui/xcom_imgui_bridge.cpp:2147-2171 | the deferred trim keeps exactly the last bytes up to the limit |
| ReceiveView.View.QueueCopy | xcom_lua/native/xcom_imgui/xcom_imgui_bridge.cpp:1356-1366 | copies exactly the retained bytes of an absolute range, or nothing |
| PeriodicTimer.ClockIsExact | xcom_core/src/runtime/periodic_timer.cpp:85-94 | the two-part conversion is floor(ticks * 10^9 / frequency) modulo 2^64 for every counter below 18.4 GHz |
| PeriodicTimer.ClockIsMonotone | xcom_core/src/runtime/periodic_timer.cpp:85-94 | the clock never runs backwards before it wraps |
| PeriodicTimer.WaitCovers | xcom_core/src/runtime/periodic_timer.cpp:16-23 | the wait is the least whole number of milliseconds that covers the rest, clamped below INFINITE |
| PeriodicTimer.NextDeadlineIsLeast | xcom_core/src/runtime/periodic_timer.cpp:113-118 | the next deadline is the least grid point after both the last deadline and the end of the callback |
| PeriodicTimer.FirstDueFires | xcom_core/src/runtime/periodic_timer.cpp:96-120 | the first reading at or past the deadline fires, and after its callback the next deadline takes over |
| PeriodicTimer.NothingDueNothingFires | xcom_core/src/runtime/periodic_timer.cpp:96-120 | with no due reading nothing fires |
| PeriodicTimer.Timer.Run | xcom_core/src/runtime/periodic_timer.cpp:96-120 | on a monotone clock the deadline stays on the grid, no firing is early, no two fall into one cell, and the firings are exactly those of the due readings |

## Left out

- Weak memory: all steps are sequentially consistent; the acquire and release orderings themselves are not part of this model.
- 32-bit wrap of byte counters, generations and `rx_meta` lengths: they are unbounded numbers here, except where wrap is the point (pool tag, error ring, job ring, clock).
- Grain of the Dispatcher: each `serial_do_*` call is one step, with the cancel flag arbitrary at its exchange; the fault fallback's two stores are one step, possible only while the session is live; the generation change and the display reset of a commit are one step; the port check and the generation stamp of `xcom_send` are one step. What could happen inside these steps is not modelled.
- Formatting one block is one step after its buffer is acquired; the view switch is read at its start.
- The order of the two charges after the loop of `rx_ingress`: the machine charges an ownerless tail when it leaves the loop.
- Grain of the receive path: one `drain_into` call, the two pool claims inside `try_alloc` (a release between them could grant the block but not the display share), the admission check with the lease it grants (`LeaseProtocol` takes them apart), the two stores of `xcom_set_options`, and the Close job's last look at the raw ring with the reset of the file are single steps.
- RxFile.FileIsLosslessAndOrdered: covers raw segments only; `xcom_log_append` blocks, which share the file, are not part of the model.
- RxLoss.NoSilentLoss: ends before `CoreState::shutdown`, which discards display bytes uncharged; a batch is accounted whole, as drained when its last byte is copied and as lost even if its front was shown.
- RxReceive.Receiver.KickAction: the Dispatcher undisturbed, as for the read thread below.
- RxIngress.ReadThread.Deliver: the read thread undisturbed; under interference `RxPath` speaks, where a failed file-lane claim may wait any number of times.
- RxStreams.DisplayIsPrefixOfNormalised: speaks of sessions that begin with empty display lanes, because the generation in a receive descriptor is never looked at.
- SerialCalls: the undisturbed call; another thread's fault or dispatch between two loads of one call is covered by the results over all runs of `SerialSystem`. The waits of `xcom_open` and `xcom_close` are not part of it.
- SerialSystem.SentinelIsExact: the waiting caller is sufficient, not necessary; which impatient calls do harm depends on when the Dispatcher runs. The exact condition is StuckIff.
- TxSends.EverySendCanBeWritten: says that the Dispatcher and the worker can go on, not that a scheduler lets them.
- TxPath: native writes, retries and the fault escalation of `sink_owner_write` are one nondeterministic step; the auto-send gate and its timer are not modelled, since a template replacement clears the gate unconditionally.
- FileJobs: a failed WriteFile is taken to leave the file unchanged, and other processes to leave the files alone; the Open, Append and Flush jobs of the log file are not part of it.
- Completions: sync completions (open, flush, close) and their reference counts.
- ReceiveView: selection, scrolling and drawing; 64-bit size arithmetic.
- coact (rings, pools, event queues): taken as FIFOs of stated capacity, `alloc_with_margin` as "at least that many blocks stay free", `event_gc` as decrement and free at zero; submissions may always be refused.
- The Win32 serial backend, port enumeration, snapshots, diagnostics, heartbeats, status mapping, all other UI and plugin code.
