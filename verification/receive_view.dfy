// The receive view of xcom_lua/native/xcom_imgui/xcom_imgui_bridge.cpp: a sliding window on
// the received text, with the starts of its lines kept up to date instead of rescanned.
module ReceiveView {
  import opened Bytes

  const LF: byte := 0x0A
  const WINDOW_MIN := 16384          // kWindowMin
  const WINDOW_MAX := 1048576        // kWindowMax
  const DRAG_SLACK := 262144         // kDragTrimSlack

  // Line starts by a scan of the whole text: 0, and every position after a newline.
  function Rescan(text: seq<byte>): (lines: seq<nat>)
    ensures lines != [] && lines[0] == 0
  {
    if text == [] then [0]
    else
      var front := Rescan(text[..|text| - 1]);
      if text[|text| - 1] == LF then front + [|text|] else front
  }

  predicate IsLineStart(text: seq<byte>, p: nat) { p == 0 || (p <= |text| && text[p - 1] == LF) }

  // The index lists exactly the line starts, in increasing order.
  lemma {:induction false} RescanIsLineStarts(text: seq<byte>)
    ensures forall i, j :: 0 <= i < j < |Rescan(text)| ==> Rescan(text)[i] < Rescan(text)[j]
    ensures forall i :: 0 <= i < |Rescan(text)| ==> IsLineStart(text, Rescan(text)[i])
    ensures forall p: nat :: IsLineStart(text, p) ==> p in Rescan(text)
  {
    if text != [] {
      var front := text[..|text| - 1];
      RescanIsLineStarts(front);
      forall p: nat | IsLineStart(text, p) ensures p in Rescan(text) {
        if p == |text| {
          assert Rescan(text)[|Rescan(text)| - 1] == p;
        } else {
          assert IsLineStart(front, p);
          assert p in Rescan(front);
        }
      }
    }
  }

  // memchr: the next newline from `from` on, or the end.
  function NextNewline(text: seq<byte>, from: nat): (p: nat)
    requires from <= |text|
    ensures from <= p <= |text|
    ensures p < |text| ==> text[p] == LF
    ensures forall i :: from <= i < p ==> text[i] != LF
    decreases |text| - from
  {
    if from == |text| || text[from] == LF then from else NextNewline(text, from + 1)
  }

  lemma {:induction false} NoNewlineNoLine(text: seq<byte>, from: nat, till: nat)
    requires from <= till <= |text| && forall i :: from <= i < till ==> text[i] != LF
    ensures Rescan(text[..till]) == Rescan(text[..from])
    decreases till
  {
    if from < till {
      NoNewlineNoLine(text, from, till - 1);
      assert text[..till][..till - 1] == text[..till - 1];
    }
  }

  // Scanning on from one newline to the next adds one line.
  lemma NextLine(text: seq<byte>, from: nat)
    requires from <= |text|
    ensures
      var p := NextNewline(text, from);
      if p < |text| then Rescan(text[..p + 1]) == Rescan(text[..from]) + [p + 1]
      else Rescan(text) == Rescan(text[..from])
  {
    var p := NextNewline(text, from);
    NoNewlineNoLine(text, from, p);
    if p < |text| { assert text[..p + 1][..p] == text[..p]; } else { assert text[..p] == text; }
  }

  // ---- trimming -----------------------------------------------------------------------

  // std::lower_bound on increasing offsets.
  function LowerBound(offsets: seq<nat>, n: nat): (k: nat)
    ensures k <= |offsets|
    ensures forall i :: 0 <= i < k ==> offsets[i] < n
    ensures k < |offsets| ==> offsets[k] >= n
  {
    if offsets == [] || offsets[0] >= n then 0 else 1 + LowerBound(offsets[1..], n)
  }

  function Shifted(offsets: seq<nat>, n: nat): seq<nat>
    requires forall i :: 0 <= i < |offsets| ==> offsets[i] >= n
  {
    seq(|offsets|, i requires 0 <= i < |offsets| => offsets[i] - n)
  }

  predicate Increasing(offsets: seq<nat>) { forall i, j :: 0 <= i < j < |offsets| ==> offsets[i] < offsets[j] }

  // The surviving offsets, moved down, with the new first line put back if it was lost.
  function Trimmed(offsets: seq<nat>, n: nat): seq<nat>
    requires Increasing(offsets)
  {
    var kept := Shifted(offsets[LowerBound(offsets, n)..], n);
    if kept == [] || kept[0] != 0 then [0] + kept else kept
  }

  // The same suffix, offset by offset.
  function Keep(offsets: seq<nat>, n: nat): seq<nat> {
    if offsets == [] then []
    else
      var last := offsets[|offsets| - 1];
      Keep(offsets[..|offsets| - 1], n) + (if last >= n then [last - n] else [])
  }

  lemma {:induction false} KeepNone(offsets: seq<nat>, n: nat)
    requires forall i :: 0 <= i < |offsets| ==> offsets[i] < n
    ensures Keep(offsets, n) == []
  {
    if offsets != [] { KeepNone(offsets[..|offsets| - 1], n); }
  }

  lemma {:induction false} KeepSplit(low: seq<nat>, high: seq<nat>, n: nat)
    requires forall i :: 0 <= i < |low| ==> low[i] < n
    requires forall i :: 0 <= i < |high| ==> high[i] >= n
    ensures Keep(low + high, n) == Shifted(high, n)
  {
    if high == [] {
      assert low + high == low;
      KeepNone(low, n);
    } else {
      var front := high[..|high| - 1];
      assert (low + high)[..|low + high| - 1] == low + front;
      KeepSplit(low, front, n);
    }
  }

  lemma KeepIsShifted(offsets: seq<nat>, n: nat)
    requires Increasing(offsets)
    ensures Keep(offsets, n) == Shifted(offsets[LowerBound(offsets, n)..], n)
  {
    var k := LowerBound(offsets, n);
    forall i | 0 <= i < |offsets[k..]| ensures offsets[k..][i] >= n {
      assert offsets[k..][i] == offsets[k + i];
    }
    assert offsets == offsets[..k] + offsets[k..];
    KeepSplit(offsets[..k], offsets[k..], n);
  }

  lemma {:induction false} KeepIsRescan(text: seq<byte>, n: nat)
    requires 0 < n <= |text|
    ensures
      var kept := Keep(Rescan(text), n);
      && Rescan(text[n..]) == (if IsLineStart(text, n) then kept else [0] + kept)
      && (kept != [] && kept[0] == 0 <==> IsLineStart(text, n))
  {
    hide Keep;
    var front := text[..|text| - 1];
    RescanIsLineStarts(front);
    if n == |text| {
      forall i | 0 <= i < |Rescan(front)| ensures Rescan(front)[i] < n { assert IsLineStart(front, Rescan(front)[i]); }
      KeepNone(Rescan(front), n);
      KeepLast(text, n);
      assert text[n..] == [];
    } else {
      KeepIsRescan(front, n);
      KeepLast(text, n);
      assert text[n..][..|text| - n - 1] == front[n..];
      assert IsLineStart(text, n) == IsLineStart(front, n);
    }
  }

  lemma KeepLast(text: seq<byte>, n: nat)
    requires 0 < n <= |text|
    ensures Keep(Rescan(text), n) ==
            Keep(Rescan(text[..|text| - 1]), n) + (if text[|text| - 1] == LF then [|text| - n] else [])
  {}

  // Trimming the index is rescanning the trimmed text.
  lemma TrimIsRescan(text: seq<byte>, n: nat)
    requires 0 < n <= |text|
    ensures Increasing(Rescan(text)) && Trimmed(Rescan(text), n) == Rescan(text[n..])
  {
    RescanIsLineStarts(text);
    KeepIsShifted(Rescan(text), n);
    KeepIsRescan(text, n);
  }

  // ---- the class --------------------------------------------------------------------------

  class View {
    var text: seq<byte>              // receive_text_
    var offsets: seq<nat>            // receive_line_offsets_
    var base: nat                    // receive_base_
    var limit: nat                   // receive_limit_
    var dragging: bool               // receive_sel_anchor_ == kSelDragging
    ghost var stream: seq<byte>      // everything set or appended since the text was last set
    ghost var origin: nat            // absolute offset of stream[0]

    ghost predicate Valid()
      reads this
    {
      && offsets == Rescan(text)
      && WINDOW_MIN - 1 <= limit <= WINDOW_MAX - 1
      && |text| <= limit + (if dragging then DRAG_SLACK else 0)
      && origin <= base && base - origin + |text| == |stream|
      && text == stream[base - origin..]
    }

    constructor ()
      ensures Valid() && text == [] && base == 0 && stream == [] && !dragging
    {
      text, offsets, base, limit, dragging := [], [0], 0, 65535, false;
      stream, origin := [], 0;
    }

    // The prefix trim shared by every path that shortens the window.
    method TrimTo(keep: nat)
      requires offsets == Rescan(text) && keep < |text|
      requires origin <= base && base - origin + |text| == |stream| && text == stream[base - origin..]
      modifies this`text, this`offsets, this`base
      ensures text == old(text)[old(|text|) - keep..] && base == old(base) + old(|text|) - keep
      ensures offsets == Rescan(text)
      ensures base - origin + |text| == |stream| && text == stream[base - origin..]
    {
      hide Rescan;
      var n := |text| - keep;
      TrimIsRescan(text, n);
      text := text[n..];
      base := base + n;
      offsets := offsets[LowerBound(offsets, n)..];
      ghost var kept := offsets;
      var i := 0;
      while i < |offsets|
        invariant 0 <= i <= |offsets| == |kept|
        invariant forall k :: 0 <= k < i ==> offsets[k] == kept[k] - n
        invariant forall k :: i <= k < |offsets| ==> offsets[k] == kept[k]
        modifies this`offsets
      {
        assert kept[i] >= n;
        offsets := offsets[i := offsets[i] - n];
        i := i + 1;
      }
      assert offsets == Shifted(kept, n);
      if |offsets| == 0 || offsets[0] != 0 { offsets := [0] + offsets; }
    }

    // xcom_imgui_set_receive_window
    method SetWindow(bytes: nat)
      requires Valid()
      modifies this`limit, this`text, this`offsets, this`base
      ensures Valid()
      ensures limit == (if bytes < WINDOW_MIN then WINDOW_MIN else if bytes > WINDOW_MAX then WINDOW_MAX else bytes) - 1
      ensures text == if old(|text|) <= limit then old(text) else old(text)[old(|text|) - limit..]
    {
      var clamped := bytes;
      if clamped < WINDOW_MIN { clamped := WINDOW_MIN; }
      if clamped > WINDOW_MAX { clamped := WINDOW_MAX; }
      limit := clamped - 1;
      if |text| > limit { TrimTo(limit); }
    }

    // xcom_imgui_set_receive_base, then xcom_imgui_set_receive_text: the first `limit` bytes.
    method SetText(absolute: nat, data: seq<byte>)
      requires Valid()
      modifies this
      ensures Valid() && limit == old(limit)
      ensures data != [] ==> text == data[..Min(|data|, limit)] && base == absolute && dragging == old(dragging)
      ensures data == [] ==> text == [] && base == 0 && !dragging
      ensures stream == text && origin == base
    {
      if data == [] {
        text, offsets, base, dragging := [], [0], 0, false;
        stream, origin := [], 0;
        return;
      }
      base := absolute;
      text := data[..if |data| < limit then |data| else limit];
      offsets := [0];
      IndexFrom(0);
      stream, origin := text, base;
    }

    // The memchr loop: index the newlines from `scan` on.
    method IndexFrom(from: nat)
      requires from <= |text| && offsets == Rescan(text[..from])
      modifies this`offsets
      ensures offsets == Rescan(text)
    {
      hide Rescan;
      var scan := from;
      var newline := NextNewline(text, scan);
      NextLine(text, scan);
      while newline < |text|
        invariant scan <= newline <= |text| && newline == NextNewline(text, scan)
        invariant offsets == Rescan(text[..scan])
        invariant if newline < |text| then Rescan(text[..newline + 1]) == Rescan(text[..scan]) + [newline + 1]
                  else Rescan(text) == Rescan(text[..scan])
        decreases |text| - scan
      {
        offsets := offsets + [newline + 1];
        scan := newline + 1;
        newline := NextNewline(text, scan);
        NextLine(text, scan);
      }
    }

    // xcom_imgui_receive_append: only the new bytes are scanned; a drag defers the trim.
    method Append(delta: seq<byte>)
      requires Valid()
      modifies this`text, this`offsets, this`base, this`stream
      ensures Valid() && stream == old(stream) + delta
      ensures base + |text| == old(base) + old(|text|) + |delta|
      ensures if old(|text|) + |delta| <= limit + (if dragging then DRAG_SLACK else 0) then base == old(base)
              else |text| == limit
    {
      hide Rescan;
      if delta == [] { return; }
      var scanFrom := |text|;
      assert (text + delta)[..scanFrom] == text;
      assert (stream + delta)[base - origin..] == text + delta;
      text := text + delta;
      stream := stream + delta;
      IndexFrom(scanFrom);
      var trimAt := if dragging then limit + DRAG_SLACK else limit;
      if |text| > trimAt { TrimTo(limit); }
    }

    method StartDrag()
      requires Valid()
      modifies this`dragging
      ensures Valid() && dragging
    {
      dragging := true;
    }

    // The frame that sees the button released catches up with the deferred trim.
    method ReleaseDrag()
      requires Valid()
      modifies this`dragging, this`text, this`offsets, this`base
      ensures Valid() && !dragging
      ensures text == if old(|text|) <= limit then old(text) else old(text)[old(|text|) - limit..]
      ensures base == old(base) + old(|text|) - |text|
    {
      if dragging {
        dragging := false;
        if |text| > limit { TrimTo(limit); }
      }
    }

    // How many bytes of an absolute range are still in the window.
    function Overlap(begin: nat, end: nat): int
      reads this
    {
      Min(end, base + |text|) - (if begin > base then begin else base)
    }

    // QueueReceiveCopy: the retained part of an absolute range of the lifetime stream.
    method QueueCopy(begin: nat, end: nat) returns (copy: Option<seq<byte>>)
      requires Valid()
      ensures copy.Some? <==> Overlap(begin, end) > 0
      ensures copy.Some? ==>
                var from, till := if begin > base then begin else base, Min(end, base + |text|);
                from < till && copy.value == stream[from - origin..till - origin]
    {
      var windowEnd := base + |text|;
      var from := if begin > base then begin else base;
      var till := if end < windowEnd then end else windowEnd;
      if till <= from { return None; }
      copy := Some(text[from - base..till - base]);
    }
  }
}
