// From the backend to the two consumers, byte for byte: what was put on the raw ring and what
// was published to the display is what the callbacks delivered, and so is what the file and
// the view come to hold.
module RxDelivery {
  import opened Bytes
  import opened Normaliser
  import opened RxPath
  import opened RxRefs
  import opened RxStreams
  import opened RxFile
  import DT = DisplayText
  import DL = DisplayLane

  // ---- reading the history -----------------------------------------------------------

  predicate WellCall(c: Call) { c.kept <= |c.data| }

  function Kept(c: Call): seq<byte> { if c.kept <= |c.data| then c.data[..c.kept] else [] }

  // What the callbacks delivered and an owner was found for, in order.
  function KeptBytes(calls: seq<Call>): seq<byte> {
    if calls == [] then [] else KeptBytes(calls[..|calls| - 1]) + Kept(calls[|calls| - 1])
  }

  // The part of it that had the file lane.
  function KeptFile(calls: seq<Call>): seq<byte> {
    if calls == [] then []
    else
      var last := calls[|calls| - 1];
      KeptFile(calls[..|calls| - 1]) + (if last.fileLane then Kept(last) else [])
  }

  function DataBytes(calls: seq<Call>): nat {
    if calls == [] then 0 else DataBytes(calls[..|calls| - 1]) + |calls[|calls| - 1].data|
  }

  function SegmentBytes(segments: seq<Segment>): seq<byte> {
    if segments == [] then [] else SegmentBytes(segments[..|segments| - 1]) + segments[|segments| - 1].bytes
  }

  // The pieces the display was given.
  function ShownBytes(segments: seq<Segment>): seq<byte> {
    if segments == [] then []
    else
      var last := segments[|segments| - 1];
      ShownBytes(segments[..|segments| - 1]) + (if last.shown then last.bytes else [])
  }

  predicate InLoop(r: Reader) { r.Cutting? || r.Publishing? || r.Counting? }

  // Of the running callback: not yet published, and not yet on the raw ring.
  function Unpublished(s: State): seq<byte> {
    if !InLoop(s.reader) then []
    else (if s.reader.Publishing? then s.heard.piece else []) + s.reader.i.rest
  }

  function Unpushed(s: State): seq<byte> {
    if !InLoop(s.reader) || !s.reader.i.fileLane then []
    else (if s.reader.Publishing? && !s.reader.rawDone then s.heard.piece else []) + s.reader.i.rest
  }

  // ---- the invariant -----------------------------------------------------------------------

  // The running callback is the last one; what is left of it is its end, all of it still kept.
  predicate CallInv(s: State) {
    var calls, r := s.heard.calls, s.reader;
    && (forall k :: 0 <= k < |calls| ==> WellCall(calls[k]))
    && (InLoop(r) ==>
          && calls != []
          && var last := calls[|calls| - 1];
          && last.fileLane == r.i.fileLane && last.kept == |last.data|
          && |r.i.rest| <= |last.data| && r.i.rest == last.data[|last.data| - |r.i.rest|..])
  }

  ghost predicate PieceInv(s: State) {
    s.reader.Publishing? ==> Payload(s.pool.mem, s.reader.d) == s.heard.piece
  }

  predicate StreamsHeard(s: State) {
    && KeptFile(s.heard.calls) == s.heard.pushed + Unpushed(s)
    && KeptBytes(s.heard.calls) == SegmentBytes(s.heard.segments) + Unpublished(s)
    && forall k :: 0 <= k < |s.heard.segments| ==> s.heard.segments[k].shown || s.heard.segments[k].fileLane
  }

  predicate EndsWith(all: seq<byte>, end: seq<byte>) { |end| <= |all| && all[|all| - |end|..] == end }

  ghost predicate FileHeard(s: State) {
    && EndsWith(s.heard.pushed, RingText(s.pool.mem, s.pool.raw))
    && s.heard.fileStart <= |s.heard.pushed| && s.log.leased == s.heard.pushed[s.heard.fileStart..]
  }

  predicate DisplayHeard(s: State) {
    && s.heard.sessionStart <= |s.heard.segments|
    && s.show.published == ShownBytes(s.heard.segments[s.heard.sessionStart..])
  }

  predicate LossHeard(s: State) {
    && s.ledger.offered == DataBytes(s.heard.calls)
    && s.ledger.chargedIngress == DataBytes(s.heard.calls) - |KeptBytes(s.heard.calls)|
  }

  ghost predicate HeardInv(s: State) {
    CallInv(s) && PieceInv(s) && StreamsHeard(s) && FileHeard(s) && DisplayHeard(s) && LossHeard(s)
  }

  lemma CallsPush(calls: seq<Call>, c: Call)
    ensures KeptBytes(calls + [c]) == KeptBytes(calls) + Kept(c)
    ensures KeptFile(calls + [c]) == KeptFile(calls) + (if c.fileLane then Kept(c) else [])
    ensures DataBytes(calls + [c]) == DataBytes(calls) + |c.data|
  {
    assert (calls + [c])[..|calls|] == calls;
  }

  lemma SegmentsPush(segments: seq<Segment>, x: Segment)
    ensures SegmentBytes(segments + [x]) == SegmentBytes(segments) + x.bytes
    ensures ShownBytes(segments + [x]) == ShownBytes(segments) + (if x.shown then x.bytes else [])
  {
    assert (segments + [x])[..|segments|] == segments;
  }

  // Giving up the last n bytes of the last callback takes them off the end.
  lemma ForfeitTakesEnd(calls: seq<Call>, n: nat)
    requires calls != [] && n <= |calls[|calls| - 1].data| == calls[|calls| - 1].kept
    ensures
      var last := calls[|calls| - 1];
      var end := last.data[|last.data| - n..];
      && KeptBytes(calls) == KeptBytes(Forfeit(calls, n)) + end
      && KeptFile(calls) == KeptFile(Forfeit(calls, n)) + (if last.fileLane then end else [])
      && DataBytes(calls) == DataBytes(Forfeit(calls, n))
  {
    hide KeptBytes, KeptFile, DataBytes;
    var front, last := calls[..|calls| - 1], calls[|calls| - 1];
    var less := last.(kept := last.kept - n);
    CallsPush(front, less);
    CallsPush(front, last);
    assert calls == front + [last] && Forfeit(calls, n) == front + [less];
    var end := last.data[|last.data| - n..];
    KeptSplit(last, n);
    hide Kept, Forfeit;
    Regroup(KeptBytes(front), Kept(less), end);
    Regroup(KeptFile(front), Kept(less), end);
  }

  lemma KeptSplit(c: Call, n: nat)
    requires n <= |c.data| == c.kept
    ensures Kept(c) == Kept(c.(kept := c.kept - n)) + c.data[|c.data| - n..]
  {}

  lemma Regroup(a: seq<byte>, b: seq<byte>, c: seq<byte>)
    ensures a + (b + c) == (a + b) + c
  {}

  // ---- one step: the read thread ------------------------------------------------------------

  lemma CutKeepsCalls(s: State, step: Step)
    requires CallInv(s) && CanCut(s, step)
    ensures CallInv(DoCut(s, step))
  {
    if step.Claim? {
      var last, rest := s.heard.calls[|s.heard.calls| - 1].data, s.reader.i.rest;
      var n := Min(|rest|, BLOCK_BYTES);
      assert rest[n..] == last[|last| - |rest[n..]|..];
    }
  }

  lemma ClaimCopies(s: State, b: nat, ms: nat)
    requires BlockShape(s) && CanCut(s, Claim(b, ms))
    ensures PieceInv(DoCut(s, Claim(b, ms)))
  {}

  lemma ClaimKeepsStreams(s: State, b: nat, ms: nat)
    requires StreamsHeard(s) && CanCut(s, Claim(b, ms))
    ensures StreamsHeard(DoCut(s, Claim(b, ms)))
  {
    hide KeptFile, KeptBytes, SegmentBytes, Unpushed, Unpublished, DoCut, CanCut;
    ClaimEffect(s, b, ms);
  }

  lemma ClaimEffect(s: State, b: nat, ms: nat)
    requires CanCut(s, Claim(b, ms))
    ensures
      var t := DoCut(s, Claim(b, ms));
      && t.heard == s.heard.(piece := t.heard.piece)
      && Unpushed(t) == Unpushed(s) && Unpublished(t) == Unpublished(s)
  {
    hide FreeBlocks, Overwrite, AddRef;
    var rest := s.reader.i.rest;
    var n := Min(|rest|, BLOCK_BYTES);
    assert rest == rest[..n] + rest[n..];
  }

  lemma CallKeepsStreams(s: State, step: Step)
    requires StreamsHeard(s) && LossHeard(s) && CanCut(s, step) && (step.Reject? || step.Begin?)
    ensures StreamsHeard(DoCut(s, step)) && LossHeard(DoCut(s, step))
  {
    hide KeptFile, KeptBytes, SegmentBytes, DataBytes, Unpushed, Unpublished, DoCut, CanCut;
    var h, t := s.heard, DoCut(s, step);
    CallEffect(s, step);
    var c := t.heard.calls[|h.calls|];
    CallsPush(h.calls, c);
    assert h.pushed + [] == h.pushed && SegmentBytes(h.segments) + [] == SegmentBytes(h.segments);
  }

  lemma CallEffect(s: State, step: Step)
    requires CanCut(s, step) && (step.Reject? || step.Begin?)
    ensures
      var h, t := s.heard, DoCut(s, step);
      && |t.heard.calls| == |h.calls| + 1
      && var c := t.heard.calls[|h.calls|];
      && t.heard == h.(calls := h.calls + [c]) && c.data == step.data && (step.Reject? ==> !c.fileLane)
      && Kept(c) == (if step.Begin? then step.data else [])
      && Unpushed(s) == Unpublished(s) == [] && Unpublished(t) == Kept(c)
      && Unpushed(t) == (if c.fileLane then Kept(c) else [])
      && t.ledger.offered == s.ledger.offered + |c.data|
      && t.ledger.chargedIngress == s.ledger.chargedIngress + |c.data| - |Kept(c)|
  {}

  lemma LeaveKeepsStreams(s: State)
    requires StreamsHeard(s) && LossHeard(s) && CanCut(s, EndOfData)
    ensures StreamsHeard(DoCut(s, EndOfData)) && LossHeard(DoCut(s, EndOfData))
  {
    hide KeptFile, KeptBytes, SegmentBytes, DataBytes;
  }

  lemma GiveUpKeepsStreams(s: State)
    requires CallInv(s) && StreamsHeard(s) && LossHeard(s) && CanCut(s, GiveUp)
    ensures StreamsHeard(DoCut(s, GiveUp)) && LossHeard(DoCut(s, GiveUp))
  {
    hide KeptFile, KeptBytes, SegmentBytes, DataBytes, Unpushed, Unpublished, DoCut, Forfeit;
    GiveUpEffect(s);
    var rest, h := s.reader.i.rest, s.heard;
    ForfeitTakesEnd(h.calls, |rest|);
    SameFront(KeptBytes(Forfeit(h.calls, |rest|)), SegmentBytes(h.segments), rest);
    SameFront(KeptFile(Forfeit(h.calls, |rest|)), h.pushed, Unpushed(s));
    assert h.pushed + [] == h.pushed && SegmentBytes(h.segments) + [] == SegmentBytes(h.segments);
  }

  lemma GiveUpEffect(s: State)
    requires CallInv(s) && CanCut(s, GiveUp)
    ensures
      var t, rest, calls := DoCut(s, GiveUp), s.reader.i.rest, s.heard.calls;
      && t.heard == s.heard.(calls := Forfeit(calls, |rest|))
      && calls != []
      && var last := calls[|calls| - 1];
      && |rest| <= |last.data| == last.kept && last.data[|last.data| - |rest|..] == rest
      && Unpublished(s) == rest && Unpushed(s) == (if last.fileLane then rest else [])
      && Unpublished(t) == [] && Unpushed(t) == []
      && t.ledger.offered == s.ledger.offered && t.ledger.chargedIngress == s.ledger.chargedIngress + |rest|
  {
    hide FreeBlocks, Forfeit;
  }

  lemma SameFront(a: seq<byte>, b: seq<byte>, end: seq<byte>)
    requires a + end == b + end
    ensures a == b
  {
    assert a == (a + end)[..|a + end| - |end|];
    assert b == (b + end)[..|b + end| - |end|];
  }

  lemma CutKeepsFileHeard(s: State, step: Step)
    requires FileHeard(s) && RefInv(s) && CanCut(s, step)
    ensures FileHeard(DoCut(s, step))
  {
    if step.Claim? {
      assert s.pool.refs[step.b] == Holders(s, step.b);
      RingTextFrame(s.pool.mem, step.b, DoCut(s, step).pool.mem[step.b], s.pool.raw);
    }
  }

  lemma CutKeepsHeard(s: State, step: Step)
    requires HeardInv(s) && RefInv(s) && CanCut(s, step)
    ensures HeardInv(DoCut(s, step))
  {
    hide CallInv, StreamsHeard, FileHeard, RefsMatch, RingsDistinct, OneInHand;
    CutKeepsCalls(s, step);
    CutKeepsFileHeard(s, step);
    if step.Claim? {
      ClaimCopies(s, step.b, step.ms);
      ClaimKeepsStreams(s, step.b, step.ms);
    } else if step.GiveUp? {
      GiveUpKeepsStreams(s);
    } else if step.EndOfData? {
      LeaveKeepsStreams(s);
    } else {
      CallKeepsStreams(s, step);
    }
  }

  lemma PushKeepsFileHeard(s: State)
    requires FileHeard(s) && PieceInv(s) && CanPublish(s, PushRaw)
    ensures FileHeard(DoPublish(s, PushRaw))
  {
    hide RingText, Payload;
    RingTextPush(s.pool.mem, s.pool.raw, s.reader.d);
    var h, piece, ring := s.heard, s.heard.piece, RingText(s.pool.mem, s.pool.raw);
    assert (h.pushed + piece)[h.fileStart..] == h.pushed[h.fileStart..] + piece;
    assert (h.pushed + piece)[|h.pushed| - |ring|..] == h.pushed[|h.pushed| - |ring|..] + piece;
  }

  lemma PushKeepsStreams(s: State)
    requires StreamsHeard(s) && CanPublish(s, PushRaw)
    ensures StreamsHeard(DoPublish(s, PushRaw))
  {
    hide KeptFile, KeptBytes, SegmentBytes;
    var h := s.heard;
    Regroup(h.pushed, h.piece, s.reader.i.rest);
  }

  predicate EndsPiece(step: Step) { step.PushDisplay? || step.SkipDisplay? }

  // Without the file lane the display gets every piece.
  predicate ShowsUnlogged(r: Reader) { r.Publishing? && !r.i.fileLane ==> r.displayOk }

  lemma ReaderShows(s: State)
    requires RingsDistinct(s)
    ensures ShowsUnlogged(s.reader)
  {}

  lemma EndKeepsStreams(s: State, step: Step)
    requires StreamsHeard(s) && ShowsUnlogged(s.reader) && CanPublish(s, step) && EndsPiece(step)
    ensures StreamsHeard(DoPublish(s, step))
  {
    hide KeptFile, KeptBytes, SegmentBytes, ShownBytes, Unpushed, Unpublished, DoPublish, CanPublish;
    EndEffect(s, step);
    var h, t := s.heard, DoPublish(s, step);
    SegmentsPush(h.segments, t.heard.segments[|h.segments|]);
    Regroup(SegmentBytes(h.segments), h.piece, Unpublished(t));
  }

  lemma EndEffect(s: State, step: Step)
    requires CanPublish(s, step) && EndsPiece(step) && ShowsUnlogged(s.reader)
    ensures
      var h, t := s.heard, DoPublish(s, step);
      && s.reader.Publishing?
      && var x := Segment(h.piece, s.reader.i.fileLane, step.PushDisplay?);
      && (x.shown || x.fileLane) && t.heard == h.(segments := h.segments + [x])
      && Unpushed(t) == Unpushed(s) && Unpublished(s) == h.piece + Unpublished(t)
  {}

  lemma EndKeepsDisplay(s: State, step: Step)
    requires DisplayHeard(s) && PieceInv(s) && CanPublish(s, step) && EndsPiece(step)
    ensures DisplayHeard(DoPublish(s, step))
  {
    hide ShownBytes, Payload;
    var h, t := s.heard, DoPublish(s, step);
    var last := t.heard.segments[|h.segments|];
    SegmentsPush(h.segments[h.sessionStart..], last);
    assert (h.segments + [last])[h.sessionStart..] == h.segments[h.sessionStart..] + [last];
  }

  // What publishing leaves alone.
  lemma PublishLeaves(s: State, step: Step)
    requires CanPublish(s, step)
    ensures
      var t := DoPublish(s, step);
      && t.heard.calls == s.heard.calls && t.ledger.offered == s.ledger.offered
      && t.ledger.chargedIngress == s.ledger.chargedIngress
      && (InLoop(t.reader) && InLoop(s.reader) && t.reader.i.rest == s.reader.i.rest)
      && t.reader.i.fileLane == s.reader.i.fileLane
      && t.pool.mem == s.pool.mem && t.heard.piece == s.heard.piece
      && (t.reader.Publishing? ==> s.reader.Publishing? && t.reader.d == s.reader.d)
      && (!step.PushRaw? ==> t.pool.raw == s.pool.raw && t.heard.pushed == s.heard.pushed && t.log == s.log
                             && t.heard.fileStart == s.heard.fileStart)
      && (!EndsPiece(step) ==> t.heard.segments == s.heard.segments && t.show == s.show
                               && t.heard.sessionStart == s.heard.sessionStart)
  {}

  lemma PublishKeepsHeard(s: State, step: Step)
    requires HeardInv(s) && RefInv(s) && CanPublish(s, step)
    ensures HeardInv(DoPublish(s, step))
  {
    hide DoPublish, RefsMatch, BlockShape, RingsDistinct, KeptFile, KeptBytes, SegmentBytes, ShownBytes, RingText, Payload;
    PublishLeaves(s, step);
    assert ShowsUnlogged(s.reader) by { ReaderShows(s); }
    if step.PushRaw? {
      PushKeepsFileHeard(s);
      PushKeepsStreams(s);
    } else if step.Count? {
      CountKeepsStreams(s);
    } else {
      EndKeepsStreams(s, step);
      EndKeepsDisplay(s, step);
    }
  }

  lemma CountKeepsStreams(s: State)
    requires StreamsHeard(s) && CanPublish(s, Count)
    ensures StreamsHeard(DoPublish(s, Count))
  {}

  // ---- one step: everybody else --------------------------------------------------------------

  predicate SameHeard(s: State, t: State) {
    && t.heard == s.heard && t.pool.mem == s.pool.mem && t.pool.raw == s.pool.raw
    && t.log.leased == s.log.leased && t.show.published == s.show.published
    && t.ledger.offered == s.ledger.offered && t.ledger.chargedIngress == s.ledger.chargedIngress
    && (t.reader == s.reader || (!InLoop(s.reader) && !InLoop(t.reader)))
  }

  lemma SameHeardKeeps(s: State, t: State)
    requires HeardInv(s) && SameHeard(s, t)
    ensures HeardInv(t)
  {
    hide KeptFile, KeptBytes, SegmentBytes, ShownBytes, DataBytes, Payload, RingText, EndsWith;
  }

  lemma ReturnLeavesHeard(s: State, step: Step)
    requires CanReturn(s, step)
    ensures SameHeard(s, DoReturn(s, step))
  {}

  lemma DispatcherLeavesHeard(s: State, step: Step)
    ensures CanPop(s, step) ==> SameHeard(s, DoPop(s, step))
    ensures CanKick(s, step) ==> SameHeard(s, DoKick(s, step))
    ensures CanBound(s, step) && step.RetireDeferred? ==> SameHeard(s, DoBound(s, step))
  {}

  lemma FormatLeavesHeard(s: State, step: Step)
    requires CanFormat(s, step)
    ensures SameHeard(s, DoFormat(s, step))
  {}

  lemma OthersLeaveHeard(s: State, step: Step)
    ensures CanAdmit(s, step) ==> SameHeard(s, DoAdmit(s, step))
    ensures CanUi(s, step) ==> SameHeard(s, DoUi(s, step))
  {}

  lemma WriterLeavesHeard(s: State, step: Step)
    requires CanWrite(s, step) && !step.PopRaw? && !step.OpenLog?
    ensures SameHeard(s, DoWrite(s, step))
  {}

  lemma {:induction false} RingTextSize(mem: seq<seq<byte>>, ring: seq<Desc>)
    requires |mem| == BLOCKS && forall b :: 0 <= b < BLOCKS ==> |mem[b]| == BLOCK_BYTES
    requires forall k :: 0 <= k < |ring| ==> WellDesc(ring[k])
    ensures |RingText(mem, ring)| == FileBytes(ring)
  {
    if ring != [] { RingTextSize(mem, ring[1..]); }
  }

  lemma PopKeepsHeard(s: State)
    requires HeardInv(s) && CanWrite(s, PopRaw)
    ensures HeardInv(DoWrite(s, PopRaw))
  {
    hide KeptFile, KeptBytes, SegmentBytes, ShownBytes, DataBytes, Payload;
    var all, ring, rest := s.heard.pushed, RingText(s.pool.mem, s.pool.raw), RingText(s.pool.mem, s.pool.raw[1..]);
    assert rest == ring[|ring| - |rest|..];
    assert all[|all| - |rest|..] == all[|all| - |ring|..][|ring| - |rest|..];
  }

  lemma OpenLogKeepsFileHeard(s: State, ok: bool)
    requires FileHeard(s) && BlockShape(s) && CanWrite(s, OpenLog(ok))
    ensures FileHeard(DoWrite(s, OpenLog(ok)))
  {
    hide Payload, RingText, FileBytes;
    RingTextSize(s.pool.mem, s.pool.raw);
  }

  lemma OpenLogKeepsHeard(s: State, ok: bool)
    requires HeardInv(s) && BlockShape(s) && CanWrite(s, OpenLog(ok))
    ensures HeardInv(DoWrite(s, OpenLog(ok)))
  {
    hide FileHeard, BlockShape, KeptFile, KeptBytes, SegmentBytes, ShownBytes, DataBytes, Payload, RingText, FileBytes;
    hide DoWrite, CanWrite;
    OpenLogKeepsFileHeard(s, ok);
    OpenLogEffect(s, ok);
  }

  lemma OpenLogEffect(s: State, ok: bool)
    requires CanWrite(s, OpenLog(ok))
    ensures
      var t := DoWrite(s, OpenLog(ok));
      && t.heard == s.heard.(fileStart := t.heard.fileStart) && t.pool == s.pool && t.show == s.show
      && t.reader == s.reader && t.ledger == s.ledger
  {}

  lemma RetireKeepsHeard(s: State, step: Step)
    requires HeardInv(s) && CanBound(s, step) && !step.RetireDeferred?
    ensures HeardInv(DoBound(s, step))
  {
    hide KeptFile, KeptBytes, SegmentBytes, DataBytes, Payload, RingText, CanBound, DoBound, EndsWith;
    RetireEffect(s, step);
    assert s.heard.segments[|s.heard.segments|..] == [];
  }

  lemma RetireEffect(s: State, step: Step)
    requires CanBound(s, step) && !step.RetireDeferred?
    ensures
      var t := DoBound(s, step);
      && t.heard == s.heard.(sessionStart := |s.heard.segments|) && t.show.published == []
      && t.pool == s.pool && t.reader == s.reader && t.log == s.log
      && t.ledger == s.ledger.(chargedDisplay := t.ledger.chargedDisplay)
  {
    hide DL.Reset, DL.UnloggedBytes;
  }

  lemma WriteKeepsHeard(s: State, step: Step)
    requires HeardInv(s) && BlockShape(s) && CanWrite(s, step)
    ensures HeardInv(DoWrite(s, step))
  {
    hide HeardInv, BlockShape, SameHeard, DoWrite;
    if step.PopRaw? { PopKeepsHeard(s); }
    else if step.OpenLog? { OpenLogKeepsHeard(s, step.ok); }
    else {
      WriterLeavesHeard(s, step);
      SameHeardKeeps(s, DoWrite(s, step));
    }
  }

  lemma StepKeepsHeard(s: State, step: Step)
    requires HeardInv(s) && RefInv(s) && Can(s, step)
    ensures HeardInv(Do(s, step))
  {
    hide HeardInv, RefsMatch, RingsDistinct, OneInHand, BlockShape, SameHeard;
    hide CanCut, CanPublish, CanReturn, CanPop, CanFormat, CanKick, CanBound, CanWrite, CanAdmit, CanUi;
    hide DoCut, DoPublish, DoReturn, DoPop, DoFormat, DoKick, DoBound, DoWrite, DoAdmit, DoUi;
    DispatcherLeavesHeard(s, step);
    OthersLeaveHeard(s, step);
    if CanCut(s, step) { CutKeepsHeard(s, step); }
    else if CanPublish(s, step) { PublishKeepsHeard(s, step); }
    else if CanReturn(s, step) { ReturnLeavesHeard(s, step); SameHeardKeeps(s, DoReturn(s, step)); }
    else if CanPop(s, step) { SameHeardKeeps(s, DoPop(s, step)); }
    else if CanFormat(s, step) { FormatLeavesHeard(s, step); SameHeardKeeps(s, DoFormat(s, step)); }
    else if CanKick(s, step) { SameHeardKeeps(s, DoKick(s, step)); }
    else if CanBound(s, step) {
      if step.RetireDeferred? { SameHeardKeeps(s, DoBound(s, step)); } else { RetireKeepsHeard(s, step); }
    }
    else if CanWrite(s, step) { WriteKeepsHeard(s, step); }
    else { SameHeardKeeps(s, Do(s, step)); }
  }

  lemma InitHeard(s: State)
    requires Init(s)
    ensures HeardInv(s)
  {}

  lemma {:induction false} RunKeepsHeard(states: seq<State>, steps: seq<Step>, k: nat)
    requires Run(states, steps) && Init(states[0]) && k < |states|
    ensures HeardInv(states[k])
  {
    hide *;
    RunShape(states, steps);
    if k == 0 {
      InitHeard(states[0]);
    } else {
      RunStep(states, steps, k - 1);
      RunKeepsHeard(states, steps, k - 1);
      RunKeepsRefs(states, steps, k - 1);
      StepKeepsHeard(states[k - 1], steps[k - 1]);
    }
  }

  // ---- the callbacks of a run ------------------------------------------------------------------

  // What the backend delivered, callback by callback, read off the steps.
  function Delivered(steps: seq<Step>): seq<seq<byte>> {
    if steps == [] then []
    else
      var last := steps[|steps| - 1];
      Delivered(steps[..|steps| - 1]) + (if last.Begin? || last.Reject? then [last.data] else [])
  }

  function Datas(calls: seq<Call>): seq<seq<byte>> {
    if calls == [] then [] else Datas(calls[..|calls| - 1]) + [calls[|calls| - 1].data]
  }

  lemma DatasPush(calls: seq<Call>, c: Call)
    ensures Datas(calls + [c]) == Datas(calls) + [c.data]
  {
    assert (calls + [c])[..|calls|] == calls;
  }

  lemma CutHears(s: State, step: Step)
    requires CanCut(s, step) && CallInv(s)
    ensures
      Datas(DoCut(s, step).heard.calls) ==
        Datas(s.heard.calls) + (if step.Begin? || step.Reject? then [step.data] else [])
  {
    var calls := s.heard.calls;
    if step.Begin? || step.Reject? {
      DatasPush(calls, DoCut(s, step).heard.calls[|calls|]);
    } else if step.GiveUp? {
      var front, last, less := calls[..|calls| - 1], calls[|calls| - 1], Forfeit(calls, |s.reader.i.rest|)[|calls| - 1];
      DatasPush(front, last);
      DatasPush(front, less);
      assert calls == front + [last] && Forfeit(calls, |s.reader.i.rest|) == front + [less];
    }
  }

  lemma OthersHearNothing(s: State, step: Step)
    ensures CanPublish(s, step) ==> DoPublish(s, step).heard.calls == s.heard.calls
    ensures CanWrite(s, step) ==> DoWrite(s, step).heard.calls == s.heard.calls
    ensures CanBound(s, step) ==> DoBound(s, step).heard.calls == s.heard.calls
  {
    hide DL.Reset, DL.UnloggedBytes, Payload;
  }

  lemma OnlyCutsBegin(s: State, step: Step)
    ensures step.Begin? || step.Reject? ==>
              && !CanPublish(s, step) && !CanReturn(s, step) && !CanPop(s, step) && !CanFormat(s, step) && !CanKick(s, step)
              && !CanBound(s, step) && !CanWrite(s, step) && !CanAdmit(s, step) && !CanUi(s, step)
  {}

  lemma StepHears(s: State, step: Step)
    requires Can(s, step) && CallInv(s)
    ensures
      Datas(Do(s, step).heard.calls) ==
        Datas(s.heard.calls) + (if step.Begin? || step.Reject? then [step.data] else [])
  {
    hide CanCut, CanPublish, CanReturn, CanPop, CanFormat, CanKick, CanBound, CanWrite, CanAdmit, CanUi, CallInv, Datas;
    hide DoCut, DoPublish, DoReturn, DoPop, DoFormat, DoKick, DoBound, DoWrite, DoAdmit, DoUi;
    OthersHearNothing(s, step);
    OnlyCutsBegin(s, step);
    DispatcherLeavesHeard(s, step);
    OthersLeaveHeard(s, step);
    if CanCut(s, step) { CutHears(s, step); }
    else if CanReturn(s, step) { ReturnLeavesHeard(s, step); }
    else if CanFormat(s, step) { FormatLeavesHeard(s, step); }
  }

  lemma DeliveredNext(steps: seq<Step>, k: nat)
    requires 0 < k <= |steps|
    ensures
      var last := steps[k - 1];
      Delivered(steps[..k]) == Delivered(steps[..k - 1]) + (if last.Begin? || last.Reject? then [last.data] else [])
  {
    assert steps[..k][..k - 1] == steps[..k - 1];
  }

  lemma InitHearsNothing(s: State, steps: seq<Step>)
    requires Init(s)
    ensures Datas(s.heard.calls) == Delivered(steps[..0])
  {}

  lemma InCalls(s: State)
    requires HeardInv(s)
    ensures CallInv(s)
  {}

  // The history holds every callback of the run with the bytes it delivered, in order.
  lemma {:induction false} CallsAreDelivered(states: seq<State>, steps: seq<Step>, k: nat)
    requires Run(states, steps) && Init(states[0]) && k < |states|
    ensures k <= |steps| && Datas(states[k].heard.calls) == Delivered(steps[..k])
  {
    hide *;
    RunShape(states, steps);
    if k == 0 {
      InitHearsNothing(states[0], steps);
    } else {
      CallsAreDelivered(states, steps, k - 1);
      RunStep(states, steps, k - 1);
      RunKeepsHeard(states, steps, k - 1);
      InCalls(states[k - 1]);
      StepHears(states[k - 1], steps[k - 1]);
      DeliveredNext(steps, k);
    }
  }

  // ---- the main results ---------------------------------------------------------------------------

  // What the callbacks with the file lane delivered, less the tails charged as loss, is in order
  // what has been put on the raw ring and what the read thread still has to put there. The
  // bytes leased to the open file are the last of these, and while no tail was given up the
  // file holds them from the first on, unaltered; closing it leaves all of them there.
  lemma FileHoldsWhatWasDelivered(states: seq<State>, steps: seq<Step>, k: nat)
    requires Run(states, steps) && Init(states[0]) && k < |states|
    ensures
      var s, h := states[k], states[k].heard;
      && KeptFile(h.calls) == h.pushed + Unpushed(s)
      && h.fileStart <= |h.pushed| && s.log.leased == h.pushed[h.fileStart..]
      && (!s.log.tailCharged ==> s.log.written <= h.pushed[h.fileStart..])
      && (!s.log.tailCharged && k < |steps| && steps[k].CloseFile? && s.log.open ==>
            s.log.written == h.pushed[h.fileStart..])
  {
    hide *;
    RunKeepsHeard(states, steps, k);
    FileIsLosslessAndOrdered(states, steps, k);
    var s := states[k];
    InFile(s);
    if !s.log.tailCharged { Regroup(s.log.written, WriterRest(s), RingText(s.pool.mem, s.pool.raw)); }
  }

  lemma InFile(s: State)
    requires HeardInv(s)
    ensures KeptFile(s.heard.calls) == s.heard.pushed + Unpushed(s)
    ensures s.heard.fileStart <= |s.heard.pushed| && s.log.leased == s.heard.pushed[s.heard.fileStart..]
  {}

  lemma OpensEmpty(s: State)
    requires FileInv(s) && CanWrite(s, OpenLog(true)) && !s.log.open && !s.admit.underLease
    ensures DoWrite(s, OpenLog(true)).heard.fileStart == |s.heard.pushed|
  {}

  lemma OpenLogIs(s: State)
    requires Can(s, OpenLog(true))
    ensures CanWrite(s, OpenLog(true)) && Do(s, OpenLog(true)) == DoWrite(s, OpenLog(true))
  {}

  // A file that is opened while none was ever closed under a lease begins with the next byte
  // put on the raw ring.
  lemma FileStartsWhenOpened(states: seq<State>, steps: seq<Step>, k: nat)
    requires Run(states, steps) && Init(states[0]) && k < |steps| && steps[k] == OpenLog(true)
    requires !states[k].log.open && !states[k].admit.underLease
    ensures states[k + 1].heard.fileStart == |states[k].heard.pushed| == |states[k + 1].heard.pushed|
  {
    hide Run, Init, Can, Do, LaneInv, ShowInv;
    RunShape(states, steps);
    RunKeepsStreams(states, steps, k);
    RunStep(states, steps, k);
    OpenLogIs(states[k]);
    OpensEmpty(states[k]);
  }

  // What the callbacks delivered, less the tails charged as loss, is in order the pieces
  // published and what is not yet published. The display was given some of the pieces, each
  // whole and in order, and every piece it was not given had the file lane. What the loss
  // counter has for the read thread is exactly the rest of what was delivered.
  lemma DisplayIsGivenWhatWasDelivered(states: seq<State>, steps: seq<Step>, k: nat)
    requires Run(states, steps) && Init(states[0]) && k < |states|
    ensures
      var s, h := states[k], states[k].heard;
      && KeptBytes(h.calls) == SegmentBytes(h.segments) + Unpublished(s)
      && (forall i :: 0 <= i < |h.segments| ==> h.segments[i].shown || h.segments[i].fileLane)
      && h.sessionStart <= |h.segments| && s.show.published == ShownBytes(h.segments[h.sessionStart..])
      && s.ledger.offered == DataBytes(h.calls)
      && s.ledger.chargedIngress == DataBytes(h.calls) - |KeptBytes(h.calls)|
  {
    RunKeepsHeard(states, steps, k);
  }

  // End to end, text view: in a session that began with empty lanes, the text drained so far is
  // the front of what a reader sees of the pieces given to the display.
  lemma TextShowsWhatWasDelivered(states: seq<State>, steps: seq<Step>, k: nat)
    requires Run(states, steps) && Init(states[0]) && k < |states| && states[k].show.session
    requires forall i :: 0 <= i < |states[k].show.formatted| ==> !states[k].show.formatted[i].hex
    ensures
      var h := states[k].heard;
      && h.sessionStart <= |h.segments|
      && states[k].show.delivered <= DT.Shown(ShownBytes(h.segments[h.sessionStart..]))
  {
    hide Run, Init, Norm, DT.Shown;
    DisplayIsGivenWhatWasDelivered(states, steps, k);
    DisplayIsPrefixOfNormalised(states, steps, k);
    DT.NormIsShown(states[k].show.published);
  }

  // The blocks of the hex view, one after the other.
  function HexDump(fs: seq<Formatted>): seq<byte> {
    if fs == [] then [] else HexDump(fs[..|fs| - 1]) + Hex(fs[|fs| - 1].payload)
  }

  lemma {:induction false} HexFoldIsDump(fs: seq<Formatted>)
    requires forall i :: 0 <= i < |fs| ==> fs[i].hex
    ensures Fold(fs).1 == HexDump(fs)
  {
    if fs != [] { HexFoldIsDump(fs[..|fs| - 1]); }
  }

  // The same for the hex view: the drained text is the front of the dump of the blocks
  // formatted, and these are the front of the pieces given to the display.
  lemma HexShowsWhatWasDelivered(states: seq<State>, steps: seq<Step>, k: nat)
    requires Run(states, steps) && Init(states[0]) && k < |states| && states[k].show.session
    requires forall i :: 0 <= i < |states[k].show.formatted| ==> states[k].show.formatted[i].hex
    ensures
      var s, h := states[k], states[k].heard;
      && h.sessionStart <= |h.segments|
      && s.show.delivered <= HexDump(s.show.formatted)
      && Payloads(s.show.formatted) <= ShownBytes(h.segments[h.sessionStart..])
  {
    hide Run, Init, HexDump, Fold, Payloads, ShownBytes;
    DisplayIsGivenWhatWasDelivered(states, steps, k);
    DisplayLosesNothing(states, steps, k);
    HexFoldIsDump(states[k].show.formatted);
  }

  // ---- the chosen view ----------------------------------------------------------------------------

  // The view options the caller set last.
  function ChosenHex(steps: seq<Step>): bool {
    if steps == [] then false
    else if steps[|steps| - 1].SetOptions? then steps[|steps| - 1].hex
    else ChosenHex(steps[..|steps| - 1])
  }

  function ChosenPause(steps: seq<Step>): bool {
    if steps == [] then false
    else if steps[|steps| - 1].SetOptions? then steps[|steps| - 1].paused
    else ChosenPause(steps[..|steps| - 1])
  }

  predicate SameView(s: State, t: State) { t.show.hex == s.show.hex && t.show.paused == s.show.paused }

  lemma CutLeavesView(s: State, step: Step)
    requires CanCut(s, step)
    ensures SameView(s, DoCut(s, step))
  {}

  lemma ReaderLeavesView(s: State, step: Step)
    ensures CanPublish(s, step) ==> SameView(s, DoPublish(s, step))
    ensures CanReturn(s, step) ==> SameView(s, DoReturn(s, step))
  {}

  lemma DispatcherLeavesView(s: State, step: Step)
    ensures CanPop(s, step) ==> SameView(s, DoPop(s, step))
    ensures CanFormat(s, step) ==> SameView(s, DoFormat(s, step))
    ensures CanKick(s, step) ==> SameView(s, DoKick(s, step))
    ensures CanBound(s, step) ==> SameView(s, DoBound(s, step))
  {}

  lemma FileLeavesView(s: State, step: Step)
    ensures CanWrite(s, step) ==> SameView(s, DoWrite(s, step))
    ensures CanAdmit(s, step) ==> SameView(s, DoAdmit(s, step))
    ensures CanUi(s, step) && !step.SetOptions? ==> SameView(s, DoUi(s, step))
  {}

  lemma OptionsAreSet(s: State, hex: bool, paused: bool)
    requires Can(s, SetOptions(hex, paused))
    ensures Do(s, SetOptions(hex, paused)).show.hex == hex && Do(s, SetOptions(hex, paused)).show.paused == paused
  {}

  lemma OnlyOptionsSetView(s: State, step: Step)
    requires Can(s, step) && !step.SetOptions?
    ensures SameView(s, Do(s, step))
  {
    hide CanCut, CanPublish, CanReturn, CanPop, CanFormat, CanKick, CanBound, CanWrite, CanAdmit, CanUi, SameView;
    hide DoCut, DoPublish, DoReturn, DoPop, DoFormat, DoKick, DoBound, DoWrite, DoAdmit, DoUi;
    if CanCut(s, step) { CutLeavesView(s, step); }
    ReaderLeavesView(s, step);
    DispatcherLeavesView(s, step);
    FileLeavesView(s, step);
  }

  lemma ChosenNext(steps: seq<Step>, k: nat)
    requires 0 < k <= |steps|
    ensures
      var last := steps[k - 1];
      && ChosenHex(steps[..k]) == (if last.SetOptions? then last.hex else ChosenHex(steps[..k - 1]))
      && ChosenPause(steps[..k]) == (if last.SetOptions? then last.paused else ChosenPause(steps[..k - 1]))
  {
    assert steps[..k][..k - 1] == steps[..k - 1];
  }

  lemma InitView(s: State)
    requires Init(s)
    ensures !s.show.hex && !s.show.paused
  {}

  lemma NothingChosen(steps: seq<Step>)
    ensures !ChosenHex(steps[..0]) && !ChosenPause(steps[..0])
  {}

  lemma {:induction false} ViewIsChosen(states: seq<State>, steps: seq<Step>, k: nat)
    requires Run(states, steps) && Init(states[0]) && k < |states|
    ensures k <= |steps|
    ensures states[k].show.hex == ChosenHex(steps[..k]) && states[k].show.paused == ChosenPause(steps[..k])
  {
    hide *;
    RunShape(states, steps);
    if k == 0 {
      InitView(states[0]);
      NothingChosen(steps);
    } else {
      ViewIsChosen(states, steps, k - 1);
      RunStep(states, steps, k - 1);
      ChosenNext(steps, k);
      var last := steps[k - 1];
      if last.SetOptions? {
        OptionsAreSet(states[k - 1], last.hex, last.paused);
      } else {
        OnlyOptionsSetView(states[k - 1], last);
        ViewSame(states[k - 1], states[k]);
      }
    }
  }

  lemma ViewSame(s: State, t: State)
    requires SameView(s, t)
    ensures t.show.hex == s.show.hex && t.show.paused == s.show.paused
  {}

  lemma FormatNotes(s: State)
    requires LaneInv(s) && BlockShape(s) && Can(s, Format)
    ensures
      var t := Do(s, Format);
      && |t.show.formatted| == |s.show.formatted| + 1 && t.show.formatted[..|s.show.formatted|] == s.show.formatted
      && t.show.formatted[|s.show.formatted|].hex == s.show.hex
  {
    FormatEffect(s);
  }

  // Every block is formatted in the view chosen last before.
  lemma FormatsInChosenView(states: seq<State>, steps: seq<Step>, k: nat)
    requires Run(states, steps) && Init(states[0]) && k < |steps| && steps[k].Format?
    ensures
      var fs, gs := states[k].show.formatted, states[k + 1].show.formatted;
      |gs| == |fs| + 1 && gs[..|fs|] == fs && gs[|fs|].hex == ChosenHex(steps[..k])
  {
    hide Run, Init, Can, Do, FileInv, ShowInv, LaneInv, RefsMatch, RingsDistinct, BlockShape;
    RunShape(states, steps);
    RunKeepsStreams(states, steps, k);
    RunKeepsRefs(states, steps, k);
    RunStep(states, steps, k);
    ViewIsChosen(states, steps, k);
    FormatNotes(states[k]);
  }
}
