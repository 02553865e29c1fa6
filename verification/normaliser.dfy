// The receive-view formatter: `format_payload` of xcom_core/src/ao/xcom_ao.cpp.
// The text instantiation is a streaming ANSI/CRLF machine whose state is carried
// from one receive block to the next; the hex instantiation is byte-faithful.
module Normaliser {
  import opened Bytes

  const LF: byte := 0x0A
  const CR: byte := 0x0D
  const TAB: byte := 0x09
  const ESC: byte := 0x1B
  const BEL: byte := 0x07
  const SPACE: byte := 0x20
  const CSI_OPEN: byte := 0x5B   // '['
  const OSC_OPEN: byte := 0x5D   // ']'

  // rx_strip_state: 0 outside a sequence, 1 saw ESC, 2 in CSI, 3 in OSC, 4 ESC inside OSC.
  datatype Strip = Ground | SawEsc | InCsi | InOsc | OscEsc

  // What one block hands to the next.
  datatype Carry = Carry(strip: Strip, pendingCr: bool, lineStart: bool)

  // The carry every OPEN and close commit installs.
  const FRESH := Carry(Ground, false, true)

  predicate Visible(b: byte) {
    b == CR || b == LF || b == TAB || b >= 0x20
  }

  // A byte the display may hold: no ESC, no CR and no C0 control but LF and TAB.
  predicate Clean(b: byte) {
    b == LF || b == TAB || b >= 0x20
  }

  function InSequence(s: Strip, b: byte): Strip {
    match s
    case Ground => Ground
    case SawEsc => if b == CSI_OPEN then InCsi else if b == OSC_OPEN then InOsc else Ground
    case InOsc => if b == BEL then Ground else if b == ESC then OscEsc else InOsc
    case OscEsc => Ground
    case InCsi => if 0x40 <= b <= 0x7E then Ground else InCsi
  }

  // The machine one byte at a time, with no look-ahead: the definition the block
  // method below, which does look ahead, is measured against.
  function Step(c: Carry, b: byte): (Carry, seq<byte>) {
    if c.strip != Ground then (Carry(InSequence(c.strip, b), false, c.lineStart), [])
    else if c.pendingCr && b == LF then (c.(pendingCr := false), [])
    else if b == ESC then (Carry(SawEsc, false, c.lineStart), [])
    else if !Visible(b) then (c.(pendingCr := false), [])
    else if b == CR then (Carry(Ground, true, true), [LF])
    else (Carry(Ground, false, b == LF), [b])
  }

  // The one-shot normaliser: carry and text after a whole stream.
  function Norm(c: Carry, s: seq<byte>): (Carry, seq<byte>) {
    if s == [] then (c, [])
    else
      var (c1, o1) := Norm(c, s[..|s| - 1]);
      var (c2, o2) := Step(c1, s[|s| - 1]);
      (c2, o1 + o2)
  }

  // However a stream is cut, carrying the state over the cut changes nothing.
  lemma {:induction false} NormConcat(c: Carry, a: seq<byte>, b: seq<byte>)
    ensures Norm(c, a + b).0 == Norm(Norm(c, a).0, b).0
    ensures Norm(c, a + b).1 == Norm(c, a).1 + Norm(Norm(c, a).0, b).1
  {
    if b == [] {
      assert a + b == a;
    } else {
      var b' := b[..|b| - 1];
      assert (a + b)[..|a + b| - 1] == a + b';
      NormConcat(c, a, b');
    }
  }

  lemma NormNext(c: Carry, s: seq<byte>, i: nat)
    requires i < |s|
    ensures Norm(c, s[..i + 1]).0 == Step(Norm(c, s[..i]).0, s[i]).0
    ensures Norm(c, s[..i + 1]).1 == Norm(c, s[..i]).1 + Step(Norm(c, s[..i]).0, s[i]).1
  {
    assert s[..i + 1][..i] == s[..i];
  }

  lemma NormOne(c: Carry, b: byte)
    ensures Norm(c, [b]) == Step(c, b)
  {
    var (c1, o1) := Norm(c, [b][..0]);
    assert (c1, o1) == (c, []);
    assert [] + Step(c, b).1 == Step(c, b).1;
  }

  // Text never grows, and holds displayable bytes only, from every carry.
  lemma {:induction false} NormClean(c: Carry, s: seq<byte>)
    ensures |Norm(c, s).1| <= |s|
    ensures forall i :: 0 <= i < |Norm(c, s).1| ==> Clean(Norm(c, s).1[i])
  {
    if s != [] { NormClean(c, s[..|s| - 1]); }
  }

  // Displayable text is a fixed point of the normaliser.
  lemma {:induction false} NormFixesCleanText(c: Carry, s: seq<byte>)
    requires c.strip == Ground && !c.pendingCr
    requires forall i :: 0 <= i < |s| ==> Clean(s[i])
    ensures Norm(c, s).1 == s
    ensures Norm(c, s).0.strip == Ground && !Norm(c, s).0.pendingCr
  {
    if s != [] {
      NormFixesCleanText(c, s[..|s| - 1]);
      assert s == s[..|s| - 1] + [s[|s| - 1]];
    }
  }

  // Normalising twice is normalising once.
  lemma NormIdempotent(c: Carry, s: seq<byte>)
    ensures Norm(FRESH, Norm(c, s).1).1 == Norm(c, s).1
  {
    NormClean(c, s);
    NormFixesCleanText(FRESH, Norm(c, s).1);
  }

  // A control sequence in the sense of section 5.4 of ECMA-48, introduced by ESC '[':
  // parameter bytes, then intermediate bytes, then one final byte.
  ghost predicate ControlSequence(e: seq<byte>, params: nat) {
    && 3 <= |e| && 2 + params < |e|
    && e[0] == ESC && e[1] == CSI_OPEN
    && (forall i :: 2 <= i < 2 + params ==> 0x30 <= e[i] <= 0x3F)
    && (forall i :: 2 + params <= i < |e| - 1 ==> 0x20 <= e[i] <= 0x2F)
    && 0x40 <= e[|e| - 1] <= 0x7E
  }

  lemma {:induction false} InsideControlSequence(c: Carry, e: seq<byte>, params: nat, k: nat)
    requires ControlSequence(e, params) && c.strip == Ground && 2 <= k < |e|
    ensures Norm(c, e[..k]) == (Carry(InCsi, false, c.lineStart), [])
  {
    assert e[..k][..k - 1] == e[..k - 1];
    if k == 2 {
      assert e[..1] == [ESC];
      NormOne(c, ESC);
    } else {
      InsideControlSequence(c, e, params, k - 1);
    }
  }

  // At a ground point a control sequence yields no text and only clears the CR carry.
  lemma ControlSequenceIsSilent(c: Carry, e: seq<byte>, params: nat)
    requires ControlSequence(e, params) && c.strip == Ground
    ensures Norm(c, e) == (c.(pendingCr := false), [])
  {
    InsideControlSequence(c, e, params, |e| - 1);
  }

  lemma NormFirst(c: Carry, y: seq<byte>)
    requires y != []
    ensures Norm(c, y).1 == Step(c, y[0]).1 + Norm(Step(c, y[0]).0, y[1..]).1
  {
    hide Norm, Step;
    assert y == [y[0]] + y[1..];
    NormConcat(c, [y[0]], y[1..]);
    NormOne(c, y[0]);
  }

  // Only an LF tells a pending CR from none.
  lemma StepAfterCr(c: Carry, b: byte)
    requires c.strip == Ground && c.pendingCr
    ensures b != LF ==> Step(c, b) == Step(c.(pendingCr := false), b)
    ensures Step(c, LF) == (c.(pendingCr := false), [])
    ensures Step(c.(pendingCr := false), LF) == (Carry(Ground, false, true), [LF])
  {}

  lemma NormEmpty(c: Carry)
    ensures Norm(c, []) == (c, [])
  {}

  // The CR carry is visible to the following text exactly when that begins with LF.
  lemma PendingCrEffect(c: Carry, y: seq<byte>)
    requires c.strip == Ground && c.pendingCr
    ensures Norm(c.(pendingCr := false), y).1 ==
            (if y != [] && y[0] == LF then [LF] else []) + Norm(c, y).1
  {
    hide Norm, Step;
    var d := c.(pendingCr := false);
    if y == [] {
      NormEmpty(c);
      NormEmpty(d);
    } else {
      NormFirst(c, y);
      NormFirst(d, y);
      StepAfterCr(c, y[0]);
      if y[0] == LF { LineStartIsSilent(d, Carry(Ground, false, true), y[1..]); }
    }
  }

  // display_at_line_start is maintained but never decides any output.
  lemma {:induction false} LineStartIsSilent(c: Carry, d: Carry, s: seq<byte>)
    requires c.strip == d.strip && c.pendingCr == d.pendingCr
    ensures Norm(c, s).1 == Norm(d, s).1
    ensures Norm(c, s).0.strip == Norm(d, s).0.strip
    ensures Norm(c, s).0.pendingCr == Norm(d, s).0.pendingCr
  {
    if s != [] { LineStartIsSilent(c, d, s[..|s| - 1]); }
  }

  lemma TextWithSequence(c: Carry, x: seq<byte>, e: seq<byte>, params: nat, y: seq<byte>)
    requires ControlSequence(e, params) && Norm(c, x).0.strip == Ground
    ensures Norm(c, x + e + y).1 == Norm(c, x).1 + Norm(Norm(c, x).0.(pendingCr := false), y).1
  {
    assert Norm(c, x + e) == (Norm(c, x).0.(pendingCr := false), Norm(c, x).1) by {
      NormConcat(c, x, e);
      ControlSequenceIsSilent(Norm(c, x).0, e, params);
      assert Norm(c, x).1 + [] == Norm(c, x).1;
    }
    NormConcat(c, x + e, y);
  }

  lemma SamePrefix(a: seq<byte>, p: seq<byte>, q: seq<byte>)
    ensures a + p == a + q <==> p == q
  {
    if a + p == a + q {
      assert p == (a + p)[|a|..] == (a + q)[|a|..] == q;
    }
  }

  // Escape erasure, with its one exception: inserting a control sequence at a ground
  // point leaves the text unchanged unless it splits a CR from the LF it pairs with.
  lemma EscapeErasure(c: Carry, x: seq<byte>, e: seq<byte>, params: nat, y: seq<byte>)
    requires ControlSequence(e, params) && Norm(c, x).0.strip == Ground
    ensures Norm(c, x + e + y).1 == Norm(c, x + y).1 <==>
            !(Norm(c, x).0.pendingCr && y != [] && y[0] == LF)
  {
    var cx := Norm(c, x).0;
    TextWithSequence(c, x, e, params, y);
    NormConcat(c, x, y);
    SamePrefix(Norm(c, x).1, Norm(cx.(pendingCr := false), y).1, Norm(cx, y).1);
    if cx.pendingCr {
      PendingCrEffect(cx, y);
      SamePrefix([], [LF] + Norm(cx, y).1, Norm(cx, y).1);
    } else {
      assert cx.(pendingCr := false) == cx;
    }
  }

  // ---- hex view -----------------------------------------------------------

  const HEX_DIGITS: seq<byte> :=
    [0x30, 0x31, 0x32, 0x33, 0x34, 0x35, 0x36, 0x37, 0x38, 0x39, 0x41, 0x42, 0x43, 0x44, 0x45, 0x46]

  function HexGroups(s: seq<byte>): (r: seq<byte>)
    ensures |r| == 3 * |s|
  {
    if s == [] then []
    else
      var b := s[|s| - 1];
      HexGroups(s[..|s| - 1]) + [HEX_DIGITS[b / 16], HEX_DIGITS[b % 16], SPACE]
  }

  // "AA BB CC": the groups without the trailing space.
  function Hex(s: seq<byte>): seq<byte> {
    if s == [] then [] else HexGroups(s)[..3 * |s| - 1]
  }

  function DigitValue(d: byte): (v: byte)
    ensures v < 16
  {
    if 0x30 <= d <= 0x39 then d - 0x30 else if 0x41 <= d <= 0x46 then d - 0x37 else 0
  }

  // An independent reader of the hex view: two digits, then skip the separator.
  function Unhex(t: seq<byte>): seq<byte> {
    if |t| < 2 then []
    else
      [(DigitValue(t[0]) * 16 + DigitValue(t[1])) as byte] + (if |t| < 3 then [] else Unhex(t[3..]))
  }

  lemma {:induction false} HexFront(s: seq<byte>)
    requires s != []
    ensures HexGroups(s) == [HEX_DIGITS[s[0] / 16], HEX_DIGITS[s[0] % 16], SPACE] + HexGroups(s[1..])
  {
    if |s| > 1 {
      HexFront(s[..|s| - 1]);
      assert s[1..][..|s| - 2] == s[..|s| - 1][1..];
    } else {
      assert s[..0] == [] && s[1..] == [];
    }
  }

  lemma DigitRoundTrip(b: byte)
    ensures DigitValue(HEX_DIGITS[b / 16]) == b / 16
    ensures DigitValue(HEX_DIGITS[b % 16]) == b % 16
  {}

  lemma HexSplit(s: seq<byte>)
    requires s != []
    ensures |Hex(s)| == 3 * |s| - 1
    ensures Hex(s)[0] == HEX_DIGITS[s[0] / 16] && Hex(s)[1] == HEX_DIGITS[s[0] % 16]
    ensures |s| > 1 ==> Hex(s)[3..] == Hex(s[1..])
  {
    HexFront(s);
  }

  // The hex view is byte-faithful: reading it back gives the received bytes.
  lemma {:induction false} HexRoundTrip(s: seq<byte>)
    ensures Unhex(Hex(s)) == s
  {
    if s != [] {
      hide HexGroups, Hex;
      HexSplit(s);
      DigitRoundTrip(s[0]);
      HexRoundTrip(s[1..]);
    }
  }

  lemma NormNothing(c: Carry, s: seq<byte>)
    ensures Norm(c, s[..0]) == (c, [])
  {}

  // ---- the block formatter --------------------------------------------------

  // The display formatting state CoreCtx keeps between blocks.
  class Formatter {
    var strip: Strip        // rx_strip_state
    var pendingCr: bool     // rx_pending_cr
    var lineStart: bool     // display_at_line_start

    ghost function Carried(): Carry
      reads this
    {
      Carry(strip, pendingCr, lineStart)
    }

    constructor ()
      ensures Carried() == FRESH
    {
      strip, pendingCr, lineStart := Ground, false, true;
    }

    // Text view. One block is normalised exactly as the byte machine would, although
    // this loop pairs a CR with the LF after it by looking ahead in the block.
    method FormatText(out: array<byte>, budget: nat, bytes: seq<byte>) returns (written: nat)
      requires budget <= out.Length
      modifies this, out
      ensures written <= Min(|bytes|, budget)
      ensures (Carried(), out[..written]) == Norm(old(Carried()), bytes[..Min(|bytes|, budget)])
      ensures forall k :: written <= k < out.Length ==> out[k] == old(out[k])
    {
      hide Norm;
      var n := Min(|bytes|, budget);
      ghost var c0 := Carried();
      NormNothing(c0, bytes);
      written := 0;
      var i := 0;
      while i < n
        invariant 0 <= i <= n && written <= i
        invariant (Carried(), out[..written]) == Norm(c0, bytes[..i])
        invariant forall k :: written <= k < out.Length ==> out[k] == old(out[k])
      {
        var b := bytes[i];
        ghost var text := out[..written];
        assert text + [] == text;
        NormNext(c0, bytes, i);
        i := i + 1;
        if pendingCr {
          pendingCr := false;
          if b == LF && strip == Ground {
            continue;
          }
        }
        if strip != Ground {
          strip := InSequence(strip, b);
          continue;
        }
        if b == ESC {
          strip := SawEsc;
          continue;
        }
        if !Visible(b) {
          continue;
        }
        var outByte := b;
        var breakLine := b == CR || b == LF;
        if b == CR {
          outByte := LF;
          if i < n && bytes[i] == LF {
            assert (text + [LF]) + [] == text + [LF];
            NormNext(c0, bytes, i);
            i := i + 1;
          } else {
            pendingCr := true;
          }
        }
        if written >= budget {
          assert false;   // the no-room branch: never more text than bytes consumed
        }
        out[written] := outByte;
        written := written + 1;
        lineStart := breakLine;
        assert out[..written] == text + [outByte];
      }
      assert bytes[..n] == bytes[..i];
    }

    // Hex view: the carry is untouched and at most the groups that fit are written.
    method FormatHex(out: array<byte>, budget: nat, bytes: seq<byte>) returns (written: nat)
      requires budget <= out.Length
      modifies out
      ensures written <= budget
      ensures out[..written] == Hex(bytes[..Min(|bytes|, if budget > 4 then (budget - 4) / 3 + 1 else 0)])
    {
      var cap := if budget > 4 then (budget - 4) / 3 + 1 else 0;
      var n := Min(|bytes|, cap);
      written := 0;
      var i := 0;
      while i < n
        invariant 0 <= i <= n && written == 3 * i
        invariant out[..written] == HexGroups(bytes[..i])
      {
        ghost var text := out[..written];
        assert bytes[..i + 1][..i] == bytes[..i];
        out[written] := HEX_DIGITS[bytes[i] / 16];
        out[written + 1] := HEX_DIGITS[bytes[i] % 16];
        out[written + 2] := SPACE;
        written := written + 3;
        assert out[..written] == text + [HEX_DIGITS[bytes[i] / 16], HEX_DIGITS[bytes[i] % 16], SPACE];
        i := i + 1;
      }
      assert bytes[..n] == bytes[..i];
      if n > 0 {
        written := written - 1;
        assert out[..written] == HexGroups(bytes[..n])[..3 * n - 1];
      }
    }
  }
}
