// What the text view of a byte stream is, read off the stream from the front and without the
// carried state: escape sequences skipped, line breaks made LF, other control bytes dropped.
module DisplayText {
  import opened Bytes
  import opened Normaliser

  // Up to and including the final byte of a control sequence, or all of it.
  function CsiLength(s: seq<byte>): (n: nat)
    ensures n <= |s|
  {
    if s == [] then 0 else if 0x40 <= s[0] <= 0x7E then 1 else 1 + CsiLength(s[1..])
  }

  // Up to and including BEL, or ESC and the byte after it.
  function OscLength(s: seq<byte>): (n: nat)
    ensures n <= |s|
  {
    if s == [] then 0
    else if s[0] == BEL then 1
    else if s[0] == ESC then Min(2, |s|)
    else 1 + OscLength(s[1..])
  }

  // The escape sequence at the front of s.
  function EscapeLength(s: seq<byte>): (n: nat)
    requires s != [] && s[0] == ESC
    ensures 1 <= n <= |s|
  {
    if |s| == 1 then 1
    else if s[1] == CSI_OPEN then 2 + CsiLength(s[2..])
    else if s[1] == OSC_OPEN then 2 + OscLength(s[2..])
    else 2
  }

  // CR LF, a lone CR and a lone LF are one line break each, written LF.
  function Shown(s: seq<byte>): seq<byte>
    decreases |s|
  {
    if s == [] then []
    else if s[0] == ESC then Shown(s[EscapeLength(s)..])
    else if s[0] == CR then [LF] + Shown(if |s| > 1 && s[1] == LF then s[2..] else s[1..])
    else if s[0] == LF || s[0] == TAB || s[0] >= 0x20 then [s[0]] + Shown(s[1..])
    else Shown(s[1..])
  }

  // ---- the machine computes it -------------------------------------------------------------

  function From(strip: Strip, s: seq<byte>): seq<byte> { Norm(Carry(strip, false, true), s).1 }

  lemma FromIsNorm(c: Carry, s: seq<byte>)
    requires !c.pendingCr
    ensures Norm(c, s).1 == From(c.strip, s)
  {
    LineStartIsSilent(c, Carry(c.strip, false, true), s);
  }

  lemma NextInside(strip: Strip, s: seq<byte>)
    requires s != [] && strip != Ground
    ensures From(strip, s) == From(InSequence(strip, s[0]), s[1..])
  {
    var c := Carry(strip, false, true);
    NormFirst(c, s);
    assert Step(c, s[0]) == (Carry(InSequence(strip, s[0]), false, true), []);
  }

  lemma {:induction false} CsiEnds(s: seq<byte>)
    ensures From(InCsi, s) == From(Ground, s[CsiLength(s)..])
  {
    if s != [] {
      NextInside(InCsi, s);
      if !(0x40 <= s[0] <= 0x7E) {
        CsiEnds(s[1..]);
        assert s[1..][CsiLength(s[1..])..] == s[CsiLength(s)..];
      }
    }
  }

  lemma {:induction false} OscEnds(s: seq<byte>)
    ensures From(InOsc, s) == From(Ground, s[OscLength(s)..])
  {
    if s != [] {
      NextInside(InOsc, s);
      if s[0] == ESC {
        if |s| > 1 {
          NextInside(OscEsc, s[1..]);
          assert s[1..][1..] == s[2..];
        }
      } else if s[0] != BEL {
        OscEnds(s[1..]);
        assert s[1..][OscLength(s[1..])..] == s[OscLength(s)..];
      }
    }
  }

  lemma EscapeEnds(s: seq<byte>)
    requires s != [] && s[0] == ESC
    ensures From(Ground, s) == From(Ground, s[EscapeLength(s)..])
  {
    var c := Carry(Ground, false, true);
    NormFirst(c, s);
    assert Step(c, ESC) == (Carry(SawEsc, false, true), []);
    if |s| > 1 {
      NextInside(SawEsc, s[1..]);
      assert s[1..][1..] == s[2..];
      if s[1] == CSI_OPEN { CsiEnds(s[2..]); }
      if s[1] == OSC_OPEN { OscEnds(s[2..]); }
    }
  }

  // A CR is written as LF, and takes an LF right behind it along.
  lemma BreakEnds(s: seq<byte>)
    requires s != [] && s[0] == CR
    ensures From(Ground, s) == [LF] + From(Ground, if |s| > 1 && s[1] == LF then s[2..] else s[1..])
  {
    var c, pending := Carry(Ground, false, true), Carry(Ground, true, true);
    NormFirst(c, s);
    assert Step(c, CR) == (pending, [LF]);
    PendingCrEffect(pending, s[1..]);
    if |s| > 1 && s[1] == LF {
      NormFirst(pending, s[1..]);
      StepAfterCr(pending, LF);
      assert s[1..][1..] == s[2..];
    }
  }

  lemma PlainEnds(s: seq<byte>)
    requires s != [] && s[0] != ESC && s[0] != CR
    ensures From(Ground, s) == (if s[0] == LF || s[0] == TAB || s[0] >= 0x20 then [s[0]] else []) + From(Ground, s[1..])
  {
    var c := Carry(Ground, false, true);
    NormFirst(c, s);
    FromIsNorm(Step(c, s[0]).0, s[1..]);
  }

  // From the start of a session the text view of any byte stream is what Shown reads off it.
  lemma {:induction false} NormIsShown(s: seq<byte>)
    ensures Norm(FRESH, s).1 == Shown(s)
    decreases |s|
  {
    hide Norm;
    if s == [] {
      NormEmpty(FRESH);
    } else if s[0] == ESC {
      EscapeEnds(s);
      NormIsShown(s[EscapeLength(s)..]);
    } else if s[0] == CR {
      BreakEnds(s);
      NormIsShown(if |s| > 1 && s[1] == LF then s[2..] else s[1..]);
    } else {
      PlainEnds(s);
      NormIsShown(s[1..]);
    }
  }

  // ---- the other sequences -----------------------------------------------------------------

  predicate NoEnd(s: seq<byte>) { forall i :: 0 <= i < |s| ==> s[i] != BEL && s[i] != ESC }

  // Two characters, or an operating system command ended by BEL or by ESC and one byte.
  predicate OtherSequence(e: seq<byte>) {
    && |e| >= 2 && e[0] == ESC && e[1] != CSI_OPEN
    && if e[1] != OSC_OPEN then |e| == 2
       else
         || (|e| >= 3 && e[|e| - 1] == BEL && NoEnd(e[2..|e| - 1]))
         || (|e| >= 4 && e[|e| - 2] == ESC && NoEnd(e[2..|e| - 2]))
  }

  lemma TwoCharacters(c: Carry, b: byte)
    requires c.strip == Ground
    ensures Norm(c, [ESC, b]) == (Carry(InSequence(SawEsc, b), false, c.lineStart), [])
  {
    NormConcat(c, [ESC], [b]);
    assert [ESC] + [b] == [ESC, b];
    NormOne(c, ESC);
    NormOne(Step(c, ESC).0, b);
  }

  lemma {:induction false} InsideOsc(c: Carry, s: seq<byte>)
    requires c.strip == InOsc && !c.pendingCr && NoEnd(s)
    ensures Norm(c, s) == (c, [])
  {
    if s == [] {
      NormEmpty(c);
    } else {
      InsideOsc(c, s[..|s| - 1]);
      var last := Step(c, s[|s| - 1]);
      assert last == (c, []) && [] + last.1 == [];
    }
  }

  lemma OscCloses(c: Carry, s: seq<byte>)
    requires c.strip == InOsc && !c.pendingCr
    requires s == [BEL] || (|s| == 2 && s[0] == ESC)
    ensures Norm(c, s) == (c.(strip := Ground), [])
  {
    NormOne(c, s[0]);
    if |s| == 2 {
      assert s == [s[0]] + [s[1]];
      NormConcat(c, [s[0]], [s[1]]);
      NormOne(Step(c, s[0]).0, s[1]);
    }
  }

  // At a ground point each of them yields no text, ends at ground and only clears the CR carry.
  lemma OtherSequenceIsSilent(c: Carry, e: seq<byte>)
    requires OtherSequence(e) && c.strip == Ground
    ensures Norm(c, e) == (c.(pendingCr := false), [])
  {
    hide Norm;
    TwoCharacters(c, e[1]);
    assert e[..2] == [ESC, e[1]] && e == e[..2] + e[2..];
    if e[1] == OSC_OPEN {
      var k := if e[|e| - 1] == BEL && NoEnd(e[2..|e| - 1]) then |e| - 1 else |e| - 2;
      var osc := Norm(c, e[..2]).0;
      assert e[2..] == e[2..k] + e[k..];
      InsideOsc(osc, e[2..k]);
      OscCloses(osc, e[k..]);
      NormConcat(osc, e[2..k], e[k..]);
      NormConcat(c, e[..2], e[2..]);
    } else {
      assert e == e[..2];
    }
  }

  // ---- the hex view --------------------------------------------------------------------------

  lemma {:induction false} GroupAt(s: seq<byte>, i: nat)
    requires i < |s|
    ensures HexGroups(s)[3 * i] == HEX_DIGITS[s[i] / 16] && HexGroups(s)[3 * i + 1] == HEX_DIGITS[s[i] % 16]
    ensures HexGroups(s)[3 * i + 2] == SPACE
  {
    if i < |s| - 1 { GroupAt(s[..|s| - 1], i); }
  }

  // Byte i is two digits, high half first, and one space before the next byte.
  lemma HexAt(s: seq<byte>, i: nat)
    requires i < |s|
    ensures |Hex(s)| == 3 * |s| - 1
    ensures DigitValue(Hex(s)[3 * i]) == s[i] / 16 && DigitValue(Hex(s)[3 * i + 1]) == s[i] % 16
    ensures i + 1 < |s| ==> Hex(s)[3 * i + 2] == SPACE
  {
    GroupAt(s, i);
    DigitRoundTrip(s[i]);
  }
}
