/** The 512-slot DMX frame the controller derives from its instruments
    (`DmxCtl::getSlots`, dmxctl/interface.cpp:644-659) and the text lines it
    writes to the engine process (`setChannel`, `fadeChannel`, `writeOut`,
    dmxctl/interface.cpp:763-807). */
module Frame {
  import opened Common
  import opened Hex
  import opened Model

  /** Number of slots in a frame, `byte slots[512]`. */
  const Universe: nat := 512

  function End(inst: Instrument): nat
  {
    inst.addr + |inst.channels|
  }

  // ---------------------------------------------------------------------------
  // The frame as intended: every address shows the channel that lives there

  /** The value of the channel `operator[](idx)` finds at address `idx`, or 0
      when no instrument covers it. */
  function SlotValue(insts: seq<Instrument>, idx: nat): (b: byte)
    ensures (forall j :: 0 <= j < |insts| ==> !Covers(insts[j], idx)) ==> b == 0
  {
    match At(insts, idx)
    case Ok(ref) => insts[ref.inst].channels[ref.chan].value
    case Err(_) => 0
  }

  /** The frame `writeOut` means to send. */
  function Slots(insts: seq<Instrument>): (f: seq<byte>)
    ensures |f| == Universe
  {
    seq(Universe, idx requires 0 <= idx < Universe => SlotValue(insts, idx))
  }

  /** Each address carries the value of the first instrument covering it; an
      address no instrument covers is 0. */
  lemma {:induction false} SlotsMeaning(insts: seq<Instrument>, idx: nat)
    requires idx < Universe
    ensures (forall j :: 0 <= j < |insts| ==> !Covers(insts[j], idx)) ==> Slots(insts)[idx] == 0
    ensures forall i :: (0 <= i < |insts| && Covers(insts[i], idx)
      && forall j :: 0 <= j < i ==> !Covers(insts[j], idx)) ==>
      Slots(insts)[idx] == insts[i].channels[idx - insts[i].addr].value
  {
  }

  // ---------------------------------------------------------------------------
  // The frame as getSlots computes it

  /** Where the iterator `ini` stands when slot `chi` is visited: it moves on one
      instrument exactly when the slot before lay at or past the end of the
      current instrument. */
  function Cursor(insts: seq<Instrument>, chi: nat): (c: nat)
    ensures c <= |insts|
  {
    if chi == 0 then 0
    else
      var c := Cursor(insts, chi - 1);
      if c < |insts| && insts[c].addr <= chi - 1 && End(insts[c]) <= chi - 1 then c + 1 else c
  }

  /** Whether the loop assigns slot `chi` at all (it skips the slot on which it
      advances `ini`). */
  predicate Writes(insts: seq<Instrument>, chi: nat)
  {
    var c := Cursor(insts, chi);
    !(c < |insts| && insts[c].addr <= chi && End(insts[c]) <= chi)
  }

  /** What the loop assigns to slot `chi` when it assigns it. */
  function Written(insts: seq<Instrument>, chi: nat): byte
  {
    var c := Cursor(insts, chi);
    if c < |insts| && insts[c].addr <= chi && chi < End(insts[c]) then insts[c].channels[chi - insts[c].addr].value
    else 0
  }

  /** The buffer after `getSlots(slots)` when it held `init` before. */
  function SlotsAsWritten(insts: seq<Instrument>, init: seq<byte>): (f: seq<byte>)
    requires |init| == Universe
    ensures |f| == Universe
    ensures forall chi :: 0 <= chi < Universe ==> f[chi] == if Writes(insts, chi) then Written(insts, chi) else init[chi]
  {
    seq(Universe, chi requires 0 <= chi < Universe => if Writes(insts, chi) then Written(insts, chi) else init[chi])
  }

  const Zeros: seq<byte> := seq(Universe, _ => 0)

  /** Instruments in ascending address order with at least one free address
      between the end of one and the start of the next. */
  predicate Spread(insts: seq<Instrument>)
  {
    forall i, j :: 0 <= i < j < |insts| ==> End(insts[i]) < insts[j].addr
  }

  /** In a spread layout, the cursor at `chi` has passed exactly the instruments
      that end before `chi`. */
  lemma {:induction false} CursorSpread(insts: seq<Instrument>, chi: nat)
    requires Spread(insts)
    ensures forall i :: 0 <= i < Cursor(insts, chi) ==> End(insts[i]) < chi
    ensures Cursor(insts, chi) < |insts| ==> chi <= End(insts[Cursor(insts, chi)])
  {
    if chi > 0 {
      CursorSpread(insts, chi - 1);
      var c := Cursor(insts, chi - 1);
      if c < |insts| && insts[c].addr <= chi - 1 && End(insts[c]) <= chi - 1 {
        if c + 1 < |insts| {
          assert End(insts[c]) < insts[c + 1].addr;
        }
      }
    }
  }

  /** For a spread layout `getSlots` computes the intended frame. */
  lemma {:induction false} SpreadAgrees(insts: seq<Instrument>)
    requires Spread(insts)
    ensures SlotsAsWritten(insts, Zeros) == Slots(insts)
  {
    forall chi | 0 <= chi < Universe
      ensures SlotsAsWritten(insts, Zeros)[chi] == Slots(insts)[chi]
    {
      SpreadAgreesAt(insts, chi);
    }
  }

  lemma {:induction false} SpreadAgreesAt(insts: seq<Instrument>, chi: nat)
    requires Spread(insts) && chi < Universe
    ensures SlotsAsWritten(insts, Zeros)[chi] == Slots(insts)[chi]
  {
    CursorSpread(insts, chi);
    var c := Cursor(insts, chi);
    SlotsMeaning(insts, chi);
    if c < |insts| && insts[c].addr <= chi && chi < End(insts[c]) {
      forall j | 0 <= j < c ensures !Covers(insts[j], chi) {
      }
    } else {
      forall j | 0 <= j < |insts| ensures !Covers(insts[j], chi) {
        if j > c {
          assert End(insts[c]) < insts[j].addr;
        }
      }
    }
  }

  /** Two one-channel instruments at addresses 0 and 1: `getSlots` never writes
      slot 1, so the second instrument's channel is lost from the frame. */
  lemma AdjacentChannelDropped()
    ensures var insts := [Instrument("a", 0, [Channel(0, "dim", 0, Master, Unit, 0)]),
                          Instrument("b", 1, [Channel(0, "dim", 0, Master, Unit, 200)])];
      SlotsAsWritten(insts, Zeros)[1] == 0 && Slots(insts)[1] == 200
  {
    var insts := [Instrument("a", 0, [Channel(0, "dim", 0, Master, Unit, 0)]),
                  Instrument("b", 1, [Channel(0, "dim", 0, Master, Unit, 200)])];
    assert Cursor(insts, 1) == 0;
    assert !Writes(insts, 1);
    assert At(insts, 1) == Ok(ChannelRef(1, 0));
  }

  /** An address no instrument covers stays 0 in a zeroed buffer. */
  lemma {:induction false} UncoveredStaysZero(insts: seq<Instrument>, idx: nat)
    requires idx < Universe && forall j :: 0 <= j < |insts| ==> !Covers(insts[j], idx)
    ensures SlotsAsWritten(insts, Zeros)[idx] == 0
  {
    var c := Cursor(insts, idx);
    if c < |insts| {
      assert !Covers(insts[c], idx);
    }
  }

  /** Instruments each of which ends past the end of every one before it. */
  predicate EndsAscending(insts: seq<Instrument>)
  {
    forall i, j :: 0 <= i < j < |insts| ==> End(insts[i]) < End(insts[j])
  }

  /** With ascending ends, the cursor at `chi` has passed exactly the
      instruments that end before `chi`. */
  lemma {:induction false} CursorAscending(insts: seq<Instrument>, chi: nat)
    requires EndsAscending(insts)
    ensures forall i :: 0 <= i < Cursor(insts, chi) ==> End(insts[i]) < chi
    ensures Cursor(insts, chi) < |insts| ==> chi <= End(insts[Cursor(insts, chi)])
  {
    if chi > 0 {
      CursorAscending(insts, chi - 1);
      var c := Cursor(insts, chi - 1);
      if c < |insts| && insts[c].addr <= chi - 1 && End(insts[c]) <= chi - 1 {
        if c + 1 < |insts| {
          assert End(insts[c]) < End(insts[c + 1]);
        }
      }
    }
  }

  /** With ascending ends, `getSlots` never assigns the address just past an
      instrument: that slot keeps whatever the buffer held. */
  lemma {:induction false} EndSlotUntouched(insts: seq<Instrument>, init: seq<byte>, i: nat)
    requires |init| == Universe && EndsAscending(insts) && i < |insts| && End(insts[i]) < Universe
    ensures SlotsAsWritten(insts, init)[End(insts[i])] == init[End(insts[i])]
  {
    var chi := End(insts[i]);
    CursorAscending(insts, chi);
    var c := Cursor(insts, chi);
    assert c == i;
  }

  /** An instrument starting at the address where the one before it ends, past
      every earlier instrument: its first channel is meant to be sent there, but
      `getSlots` leaves that slot as the buffer held it. */
  lemma {:induction false} AdjacentFirstChannelDropped(insts: seq<Instrument>, init: seq<byte>, i: nat)
    requires |init| == Universe && EndsAscending(insts) && i + 1 < |insts|
    requires End(insts[i]) == insts[i + 1].addr < Universe && |insts[i + 1].channels| > 0
    ensures SlotsAsWritten(insts, init)[insts[i + 1].addr] == init[insts[i + 1].addr]
    ensures Slots(insts)[insts[i + 1].addr] == insts[i + 1].channels[0].value
  {
    var a := insts[i + 1].addr;
    EndSlotUntouched(insts, init, i);
    SlotsMeaning(insts, a);
    forall j | 0 <= j < i + 1
      ensures !Covers(insts[j], a)
    {
      if j < i {
        assert End(insts[j]) < End(insts[i]);
      }
    }
    assert Covers(insts[i + 1], a);
  }

  // ---------------------------------------------------------------------------
  // Protocol lines

  /** The bytes of a frame as hex pairs, low nibble first. */
  function EncodeFrame(f: seq<byte>): (s: string)
    ensures |s| == 2 * |f|
    ensures forall k :: 0 <= k < |f| ==> s[2 * k..2 * k + 2] == EncodeByte(f[k])
  {
    if f == [] then []
    else
      var n := |f| - 1;
      var front := EncodeFrame(f[..n]);
      assert forall k :: 0 <= k < n ==> f[..n][k] == f[k];
      var s := front + EncodeByte(f[n]);
      assert forall k :: 0 <= k < n ==> s[2 * k..2 * k + 2] == front[2 * k..2 * k + 2];
      s
  }

  /** One more byte adds its hex pair at the end. */
  lemma EncodeFrameSnoc(f: seq<byte>, b: byte)
    ensures EncodeFrame(f + [b]) == EncodeFrame(f) + EncodeByte(b)
  {
    assert (f + [b])[..|f|] == f;
  }

  /** `writeOut`: `#`, 512 hex pairs, newline. */
  function FrameLine(f: seq<byte>): (s: string)
    requires |f| == Universe
    ensures |s| == 2 + 2 * Universe && s[0] == '#' && s[|s| - 1] == '\n'
    ensures forall k :: 0 <= k < Universe ==> s[1 + 2 * k..3 + 2 * k] == EncodeByte(f[k])
  {
    var body := EncodeFrame(f);
    var s := "#" + body + "\n";
    assert forall k :: 0 <= k < Universe ==> s[1 + 2 * k..3 + 2 * k] == body[2 * k..2 * k + 2];
    s
  }

  function SetLine(idx: nat, b: byte): string
  {
    "@" + Decimal(idx) + " " + EncodeByte(b) + "\n"
  }

  function FadeLine(idx: nat, mills: nat, b: byte): string
  {
    ">" + Decimal(idx) + " " + Decimal(mills) + " " + EncodeByte(b) + "\n"
  }

  /** The `@` line is the command character, the address in decimal, one space,
      the byte's two hex digits and a newline; the hex pair decodes to the byte. */
  lemma {:induction false} SetLineShape(idx: nat, b: byte)
    ensures var s := SetLine(idx, b); var d := Decimal(idx);
      && s[0] == '@' && s[1..1 + |d|] == d && s[1 + |d|] == ' '
      && |s| == |d| + 5 && s[|s| - 1] == '\n'
      && HexToByte(s[|d| + 2], s[|d| + 3]) == b
      && forall k :: 1 <= k < 1 + |d| ==> IsDigit(s[k])
  {
    DecimalDigits(idx);
    ByteRoundTrip(b);
  }
}
