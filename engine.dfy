/** The DMX engine child process (dmxctl/dmxctl-child.cpp): the line decoder
    `doCommand` over the 513-byte slot buffer, the character accumulator
    `continueLine`, and the write decision of its main loop. */
module Engine {
  import opened Common
  import opened Hex
  import opened Frame

  /** The buffer written to the device: the start code and 512 slots. */
  const SlotCount: nat := 513
  /** `size_t` arithmetic is modulo 2^64. */
  const SizeModulus: nat := 0x1_0000_0000_0000_0000
  /** `kMinRefr`: the longest time, in milliseconds, between two device writes. */
  const MinRefreshMs: nat := 20

  const FrameError: string := "invalid character in frame command"
  const IndexError: string := "invalid character in index command"
  const TooHigh: string := "index too high"
  const Unknown: string := "unknown command"

  // ---------------------------------------------------------------------------
  // Reading the line

  /** The characters that successive `ss >> c` extractions deliver: formatted
      input skips every white-space character. */
  function Visible(s: string): (r: string)
    ensures |r| <= |s|
    ensures forall k :: 0 <= k < |r| ==> !IsSpace(r[k])
    ensures (forall k :: 0 <= k < |s| ==> !IsSpace(s[k])) ==> r == s
  {
    if s == [] then []
    else
      var rest := Visible(s[1..]);
      assert (forall k :: 0 <= k < |s| ==> !IsSpace(s[k])) ==> forall k :: 0 <= k < |s[1..]| ==> !IsSpace(s[1..][k]);
      if IsSpace(s[0]) then rest else [s[0]] + rest
  }

  /** `ss >> i` into a `size_t`: white space, an optional sign and at least one
      digit.  A negative number is negated modulo 2^64.  Without digits, or when
      the magnitude exceeds `SIZE_MAX`, extraction fails (`None`), and every
      later extraction from the stream fails too.  On success, the value and the
      text not yet read. */
  function ParseSize(s: string): (r: Option<(nat, string)>)
    ensures r.Some? ==> r.value.0 < SizeModulus && |r.value.1| < |s|
  {
    var t := SkipSpace(s);
    var signed := t != [] && (t[0] == '+' || t[0] == '-');
    var u := if signed then t[1..] else t;
    var n := LeadingDigits(u);
    if n == 0 then None
    else
      var v := LeadingValue(u);
      if v > SizeMax then None
      else if signed && t[0] == '-' then Some(((SizeModulus - v) % SizeModulus, u[n..]))
      else Some((v, u[n..]))
  }

  // ---------------------------------------------------------------------------
  // Writing digits

  /** `slots[i] |= (byte)c << 4`. */
  function OrHigh(x: byte, d: nat): (r: byte)
    requires d < 16
  {
    assert Pow(2, 8) == 256;
    OrBelow(x, d * 16, 8);
    Or(x, d * 16)
  }

  /** On a slot that holds only a low nibble, or-ing in the high nibble adds it. */
  lemma OrHighLow(x: byte, d: nat)
    requires x < 16 && d < 16
    ensures OrHigh(x, d) == x + 16 * d
  {
    assert Pow(2, 4) == 16;
    OrDisjoint(x, d, 4);
  }

  /** Digit position `i` of the buffer: slot `i >> 1`, the low nibble for even
      `i` (which clears the high one), or-ed into the high nibble for odd `i`. */
  function PutDigit(s: seq<byte>, i: nat, d: nat): (r: seq<byte>)
    requires |s| == SlotCount && i < 2 * SlotCount && d < 16
    ensures |r| == SlotCount
    ensures forall j :: 0 <= j < SlotCount && j != i / 2 ==> r[j] == s[j]
    ensures i % 2 == 0 ==> r[i / 2] == d
    ensures i % 2 == 1 ==> r[i / 2] == OrHigh(s[i / 2], d)
  {
    if i % 2 == 1 then
      s[i / 2 := OrHigh(s[i / 2], d)]
    else s[i / 2 := d]
  }

  /** The slots from `j` on set to 0. */
  function ZeroFrom(s: seq<byte>, j: nat): (r: seq<byte>)
    requires j <= |s|
    ensures |r| == |s|
    ensures forall k :: 0 <= k < j ==> r[k] == s[k]
    ensures forall k :: j <= k < |s| ==> r[k] == 0
  {
    s[..j] + seq(|s| - j, _ => 0)
  }

  // ---------------------------------------------------------------------------
  // doCommand

  /** The `#` loop from digit position `i` on, reading the visible character
      `v[i - 2]`: at the end of the line or on a NUL character every slot from
      the one being filled on is cleared (a half-filled slot keeps its low
      nibble); a character that is no hex digit stops with an error and leaves
      what was written so far; after 1024 digits the rest of the line is
      ignored. */
  function FrameFrom(v: string, s: seq<byte>, i: nat): (r: (seq<byte>, string))
    requires |s| == SlotCount && 2 <= i <= 2 * SlotCount
    ensures |r.0| == SlotCount && r.0[0] == s[0]
    ensures r.1 == "" || r.1 == FrameError
    decreases 2 * SlotCount - i
  {
    if i == 2 * SlotCount then (s, "")
    else if i - 2 >= |v| || v[i - 2] == '\0' then (ZeroFrom(s, i / 2 + i % 2), "")
    else if HexToNybble(v[i - 2]) == -1 then (s, FrameError)
    else FrameFrom(v, PutDigit(s, i, HexToNybble(v[i - 2])), i + 1)
  }

  /** The `@` loop, reading the visible character `v[k]` for digit position
      `i`: a digit past the last slot fails with "index too high", a character
      that is no hex digit with the index error; earlier digits stay written. */
  function IndexFrom(v: string, s: seq<byte>, i: nat, k: nat): (r: (seq<byte>, string))
    requires |s| == SlotCount
    ensures |r.0| == SlotCount
    ensures r.1 == "" || r.1 == TooHigh || r.1 == IndexError
    ensures forall j :: 0 <= j < SlotCount && j < i / 2 ==> r.0[j] == s[j]
    decreases |v| - k
  {
    if k >= |v| then (s, "")
    else if 2 * SlotCount <= i then (s, TooHigh)
    else if HexToNybble(v[k]) == -1 then (s, IndexError)
    else IndexFrom(v, PutDigit(s, i, HexToNybble(v[k])), i + 1, k + 1)
  }

  /** `++i <<= 1` on a `size_t`: the first digit position of address `a`. */
  function StartIndex(a: nat): (i: nat)
    ensures i < SizeModulus && i % 2 == 0
    ensures a + 1 < SizeModulus / 2 ==> i == 2 * (a + 1)
  {
    ((a + 1) % SizeModulus) * 2 % SizeModulus
  }

  /** `doCommand(line, slots)`: the new slots and the error text ("" for
      success).  An empty line reads `EOF` as its command character. */
  function Command(line: string, s: seq<byte>): (r: (seq<byte>, string))
    requires |s| == SlotCount
    ensures |r.0| == SlotCount
    ensures r.1 == "" || r.1 == FrameError || r.1 == IndexError || r.1 == TooHigh || r.1 == Unknown
    ensures line != [] && line[0] == '#' ==> r.0[0] == 0
    ensures (line == [] || (line[0] != '#' && line[0] != '@')) ==> r == (s, Unknown)
  {
    if line == [] then (s, Unknown)
    else if line[0] == '#' then FrameFrom(Visible(line[1..]), s[0 := 0], 2)
    else if line[0] == '@' then
      match ParseSize(line[1..])
      case None => (s, "")
      case Some(p) => IndexFrom(Visible(p.1), s, StartIndex(p.0), 0)
    else (s, Unknown)
  }

  /** `slots[i >> 1] = c` or `slots[i >> 1] |= (byte)c << 4`. */
  method PutDigitAt(slots: array<byte>, i: nat, c: nat)
    requires slots.Length == SlotCount && i < 2 * SlotCount && c < 16
    modifies slots
    ensures slots[..] == PutDigit(old(slots[..]), i, c)
  {
    if i % 2 == 1 {
      slots[i / 2] := OrHigh(slots[i / 2], c);
    } else {
      slots[i / 2] := c;
    }
  }

  /** The clearing loop of `#`: `while (i < 513) slots[i++] = 0`. */
  method ClearFrom(slots: array<byte>, j: nat)
    requires slots.Length == SlotCount && j <= SlotCount
    modifies slots
    ensures slots[..] == ZeroFrom(old(slots[..]), j)
  {
    var i := j;
    while i < SlotCount
      invariant j <= i <= SlotCount
      invariant forall k :: 0 <= k < SlotCount ==> slots[k] == if j <= k < i then 0 else old(slots[k])
    {
      slots[i] := 0;
      i := i + 1;
    }
  }

  /** The digit loop of `#` over the visible characters `v`. */
  method RunFrame(v: string, slots: array<byte>) returns (err: string)
    requires slots.Length == SlotCount
    modifies slots
    ensures (slots[..], err) == FrameFrom(v, old(slots[..]), 2)
  {
    var i := 2;
    while i < 2 * SlotCount
      invariant 2 <= i <= 2 * SlotCount
      invariant FrameFrom(v, slots[..], i) == FrameFrom(v, old(slots[..]), 2)
    {
      if i - 2 >= |v| || v[i - 2] == '\0' {
        ClearFrom(slots, i / 2 + i % 2);
        return "";
      }
      var c := HexToNybble(v[i - 2]);
      if c == -1 {
        return FrameError;
      }
      PutDigitAt(slots, i, c);
      i := i + 1;
    }
    return "";
  }

  /** The digit loop of `@` from digit position `start` over the visible
      characters `v`. */
  method RunIndex(v: string, start: nat, slots: array<byte>) returns (err: string)
    requires slots.Length == SlotCount
    modifies slots
    ensures (slots[..], err) == IndexFrom(v, old(slots[..]), start, 0)
  {
    var i := start;
    var k := 0;
    while k < |v|
      invariant 0 <= k <= |v| && i == start + k
      invariant IndexFrom(v, slots[..], i, k) == IndexFrom(v, old(slots[..]), start, 0)
    {
      if 2 * SlotCount <= i {
        return TooHigh;
      }
      var c := HexToNybble(v[k]);
      if c == -1 {
        return IndexError;
      }
      PutDigitAt(slots, i, c);
      i := i + 1;
      k := k + 1;
    }
    return "";
  }

  /** `doCommand` on the buffer in place. */
  method DoCommand(line: string, slots: array<byte>) returns (err: string)
    requires slots.Length == SlotCount
    modifies slots
    ensures (slots[..], err) == Command(line, old(slots[..]))
  {
    if |line| == 0 {
      return Unknown;
    }
    if line[0] == '#' {
      slots[0] := 0;
      err := RunFrame(Visible(line[1..]), slots);
    } else if line[0] == '@' {
      var p := ParseSize(line[1..]);
      if p.None? {
        return "";
      }
      err := RunIndex(Visible(p.value.1), StartIndex(p.value.0), slots);
    } else {
      err := Unknown;
    }
  }

  // ---------------------------------------------------------------------------
  // Round trips with the controller's encoders

  lemma EncodeFrameHex(f: seq<byte>)
    ensures forall k :: 0 <= k < |EncodeFrame(f)| ==>
      IsHex(EncodeFrame(f)[k]) && !IsSpace(EncodeFrame(f)[k]) && EncodeFrame(f)[k] != '\0'
  {
    var e := EncodeFrame(f);
    forall k | 0 <= k < |e|
      ensures IsHex(e[k])
    {
      assert e[2 * (k / 2)..2 * (k / 2) + 2] == EncodeByte(f[k / 2]);
      assert e[k] == EncodeByte(f[k / 2])[k % 2];
    }
  }

  /** Slots 1..|f| hold the frame's bytes and every later slot is 0. */
  predicate Loaded(r: seq<byte>, f: seq<byte>)
    requires |r| == SlotCount && |f| < SlotCount
  {
    (forall k :: 0 <= k < |f| ==> r[k + 1] == f[k]) && (forall k :: |f| < k < SlotCount ==> r[k] == 0)
  }

  /** The `#` loop over an encoded frame of `|f|` bytes, `m` of them already in
      slots 1..m: the remaining bytes land in the following slots and every
      slot after the frame is cleared. */
  lemma {:induction false} FrameFill(f: seq<byte>, s: seq<byte>, m: nat)
    requires |f| < SlotCount && |s| == SlotCount && m <= |f|
    requires forall k :: 0 <= k < m ==> s[k + 1] == f[k]
    ensures FrameFrom(EncodeFrame(f), s, 2 + 2 * m).1 == ""
    ensures Loaded(FrameFrom(EncodeFrame(f), s, 2 + 2 * m).0, f)
    decreases |f| - m
  {
    if m < |f| {
      var b := f[m];
      FrameByte(EncodeFrame(f), s, m, b);
      FrameFill(f, s[1 + m := b], m + 1);
    } else {
      FrameEnd(EncodeFrame(f), s, m);
    }
  }

  /** The end of an encoded frame of `n` bytes: the slots after it are cleared. */
  lemma FrameEnd(v: string, s: seq<byte>, n: nat)
    requires n < SlotCount && |s| == SlotCount && |v| == 2 * n
    ensures FrameFrom(v, s, 2 + 2 * n) == (ZeroFrom(s, n + 1), "")
  {
    if n + 1 == SlotCount {
      assert ZeroFrom(s, n + 1) == s;
    }
  }

  /** Two digit positions of `#` on the encoding of byte `b`. */
  lemma FrameByte(v: string, s: seq<byte>, m: nat, b: byte)
    requires |s| == SlotCount && m < Universe && 2 * m + 2 <= |v| && v[2 * m..2 * m + 2] == EncodeByte(b)
    ensures FrameFrom(v, s, 2 + 2 * m) == FrameFrom(v, s[1 + m := b], 4 + 2 * m)
  {
    assert v[2 * m] == EncodeByte(b)[0] && v[2 * m + 1] == EncodeByte(b)[1];
    HexitValue(b % 16);
    HexitValue(b / 16);
    OrHighLow(b % 16, b / 16);
    var s1 := PutDigit(s, 2 + 2 * m, b % 16);
    assert FrameFrom(v, s, 2 + 2 * m) == FrameFrom(v, s1, 3 + 2 * m);
    assert PutDigit(s1, 3 + 2 * m, b / 16) == s[1 + m := b];
  }

  /** The `#` line of a frame of at most 512 bytes sets the start code to 0, the
      frame's bytes in slots 1, 2, ..., and clears every later slot. */
  lemma ShortFrameRoundTrip(f: seq<byte>, s: seq<byte>)
    requires |f| < SlotCount && |s| == SlotCount
    ensures Command("#" + EncodeFrame(f), s) == ([0] + f + seq(Universe - |f|, _ => 0), "")
  {
    var line := "#" + EncodeFrame(f);
    var e := EncodeFrame(f);
    assert line[0] == '#' && line[1..] == e;
    EncodeFrameHex(f);
    assert Visible(e) == e;
    var s0 := s[0 := 0];
    assert Command(line, s) == FrameFrom(e, s0, 2);
    FrameFill(f, s0, 0);
    FilledIs(FrameFrom(e, s0, 2).0, f);
  }

  /** A buffer with the start code 0, the frame's bytes in slots 1, 2, ... and
      zeros after them. */
  lemma FilledIs(r: seq<byte>, f: seq<byte>)
    requires |f| < SlotCount && |r| == SlotCount && r[0] == 0 && Loaded(r, f)
    ensures r == [0] + f + seq(Universe - |f|, _ => 0)
  {
    var t := [0] + f + seq(Universe - |f|, _ => 0);
    forall k | 0 <= k < SlotCount
      ensures r[k] == t[k]
    {
      if k == 0 {
      } else if k <= |f| {
        assert r[(k - 1) + 1] == f[k - 1];
        assert t[k] == f[k - 1];
      } else {
        assert t[k] == 0;
      }
    }
  }

  /** `writeOut`'s line, as the engine receives it without its newline, puts
      frame byte `a` into slot `a + 1` and the start code 0 into slot 0. */
  lemma FrameRoundTrip(f: seq<byte>, s: seq<byte>)
    requires |f| == Universe && |s| == SlotCount
    ensures var line := FrameLine(f); Command(line[..|line| - 1], s) == ([0] + f, "")
  {
    var line := FrameLine(f);
    var body := "#" + EncodeFrame(f);
    assert line == body + "\n";
    assert line[..|line| - 1] == body;
    ShortFrameRoundTrip(f, s);
    var z: seq<byte> := seq(Universe - |f|, _ => 0);
    assert z == [];
    assert [0] + f + z == [0] + f;
  }

  /** The `#` loop reads no character past the 1024th. */
  lemma {:induction false} FrameReadsPrefix(v: string, w: string, s: seq<byte>, i: nat)
    requires |s| == SlotCount && 2 <= i <= 2 * SlotCount
    requires 2 * Universe <= |v| && 2 * Universe <= |w| && v[..2 * Universe] == w[..2 * Universe]
    ensures FrameFrom(v, s, i) == FrameFrom(w, s, i)
    decreases 2 * SlotCount - i
  {
    if i < 2 * SlotCount {
      assert v[i - 2] == v[..2 * Universe][i - 2] == w[i - 2];
      if v[i - 2] != '\0' && HexToNybble(v[i - 2]) != -1 {
        FrameReadsPrefix(v, w, PutDigit(s, i, HexToNybble(v[i - 2])), i + 1);
      }
    }
  }

  lemma {:induction false} VisibleAppend(a: string, b: string)
    ensures Visible(a + b) == Visible(a) + Visible(b)
  {
    if a == [] {
      assert a + b == b;
    } else {
      assert (a + b)[0] == a[0] && (a + b)[1..] == a[1..] + b;
      VisibleAppend(a[1..], b);
      var h: string := if IsSpace(a[0]) then [] else [a[0]];
      AppendAssoc(h, Visible(a[1..]), Visible(b));
    }
  }

  /** Whatever follows the 1024 digits of a full frame is ignored. */
  lemma TrailingIgnored(f: seq<byte>, t: string, s: seq<byte>)
    requires |f| == Universe && |s| == SlotCount
    ensures Command("#" + EncodeFrame(f) + t, s) == ([0] + f, "")
  {
    var e := EncodeFrame(f);
    AppendAssoc("#", e, t);
    HashCommand(e + t, s);
    HashCommand(e, s);
    EncodeFrameHex(f);
    assert Visible(e) == e;
    VisibleAppend(e, t);
    PrefixOfConcat(e, Visible(t));
    FrameReadsPrefix(e + Visible(t), e, s[0 := 0], 2);
    FrameRoundTrip(f, s);
    var full := FrameLine(f);
    assert full[..|full| - 1] == "#" + e;
  }

  /** A `#` line reads the visible characters after the `#`, from slot 0 cleared. */
  lemma HashCommand(v: string, s: seq<byte>)
    requires |s| == SlotCount
    ensures Command("#" + v, s) == FrameFrom(Visible(v), s[0 := 0], 2)
  {
    assert ("#" + v)[0] == '#' && ("#" + v)[1..] == v;
  }

  /** The line "#" alone blacks out every slot. */
  lemma EmptyFrameBlacksOut(s: seq<byte>)
    requires |s| == SlotCount
    ensures Command("#", s) == (seq(SlotCount, _ => 0), "")
  {
    assert "#" == "#" + EncodeFrame([]);
    ShortFrameRoundTrip([], s);
    var z: seq<byte> := seq(Universe, _ => 0);
    assert [0] + [] + z == seq(SlotCount, _ => 0);
  }

  lemma {:induction false} DecimalParses(a: nat, rest: string)
    requires rest == [] || !IsDigit(rest[0])
    ensures ParseSize(Decimal(a) + rest) == if a <= SizeMax then Some((a, rest)) else None
  {
    var d := Decimal(a);
    DecimalDigits(a);
    var s := d + rest;
    assert IsDigit(s[0]);
    UnsignedParses(s);
    LeadingDigitsOf(d, rest);
    assert s[|d|..] == rest;
  }

  /** Text that starts with a digit is read as its leading run of digits. */
  lemma UnsignedParses(s: string)
    requires s != [] && IsDigit(s[0])
    ensures ParseSize(s) ==
      if LeadingValue(s) > SizeMax then None else Some((LeadingValue(s), s[LeadingDigits(s)..]))
  {
    assert SkipSpace(s) == s;
  }


  /** Two digit positions of `@` on the encoding of byte `b` set one slot. */
  lemma IndexByte(b: byte, s: seq<byte>, i: nat)
    requires |s| == SlotCount && i % 2 == 0 && i + 1 < 2 * SlotCount
    ensures IndexFrom(EncodeByte(b), s, i, 0) == (s[i / 2 := b], "")
  {
    var e := EncodeByte(b);
    HexitValue(b % 16);
    HexitValue(b / 16);
    OrHighLow(b % 16, b / 16);
    var s1 := PutDigit(s, i, b % 16);
    assert IndexFrom(e, s, i, 0) == IndexFrom(e, s1, i + 1, 1);
    var s2 := PutDigit(s1, i + 1, b / 16);
    assert IndexFrom(e, s1, i + 1, 1) == IndexFrom(e, s2, i + 2, 2);
    assert s2 == s[i / 2 := b];
  }

  /** The `@` line without its newline: address digits, a space, the byte. */
  lemma SetLineText(a: nat, b: byte)
    ensures var line := SetLine(a, b);
      line[..|line| - 1] == "@" + (Decimal(a) + (" " + EncodeByte(b))) &&
      line[..|line| - 1][1..] == Decimal(a) + (" " + EncodeByte(b))
  {
  }

  lemma SpaceThenByte(b: byte)
    ensures Visible(" " + EncodeByte(b)) == EncodeByte(b)
  {
    assert (" " + EncodeByte(b))[1..] == EncodeByte(b);
  }

  /** An `@` line whose address reads as `a` runs the digit loop on what follows. */
  lemma IndexCommand(line: string, s: seq<byte>, a: nat, rest: string)
    requires |s| == SlotCount && line != [] && line[0] == '@'
    requires ParseSize(line[1..]) == Some((a, rest))
    ensures Command(line, s) == IndexFrom(Visible(rest), s, StartIndex(a), 0)
  {
  }

  /** `-` followed by the digits of `a`: the address `a` negated modulo 2^64. */
  lemma {:induction false} NegatedParses(a: nat, rest: string)
    requires 0 < a <= SizeMax && (rest == [] || !IsDigit(rest[0]))
    ensures ParseSize("-" + Decimal(a) + rest) == Some((SizeModulus - a, rest))
  {
    var d := Decimal(a);
    DecimalDigits(a);
    var s := "-" + d + rest;
    assert SkipSpace(s) == s;
    var u := d + rest;
    assert s[1..] == u;
    LeadingDigitsOf(d, rest);
    assert u[|d|..] == rest;
  }

  /** The `@` line that `setChannel(a, b)` sends, for an address within the
      universe, sets slot `a + 1` to `b`, leaves every other slot, and succeeds. */
  lemma SetRoundTrip(a: nat, b: byte, s: seq<byte>)
    requires a < Universe && |s| == SlotCount
    ensures var line := SetLine(a, b); Command(line[..|line| - 1], s) == (s[a + 1 := b], "")
  {
    var line := SetLine(a, b);
    var t := line[..|line| - 1];
    var e := EncodeByte(b);
    SetLineText(a, b);
    DecimalParses(a, " " + e);
    IndexCommand(t, s, a, " " + e);
    SpaceThenByte(b);
    var i := StartIndex(a);
    assert i == 2 * (a + 1);
    IndexByte(b, s, i);
    assert i / 2 == a + 1;
  }

  /** Address -1 wraps around `size_t` to digit position 0: the `@` command can
      overwrite the start code in slot 0, which `#` always sets to 0. */
  lemma WrappedAddressReachesStartCode(b: byte, s: seq<byte>)
    requires |s| == SlotCount
    ensures Command("@-1 " + EncodeByte(b), s) == (s[0 := b], "")
  {
    var e := EncodeByte(b);
    var line := "@-1 " + e;
    var rest := " " + e;
    assert Decimal(1) == "1";
    assert line[1..] == "-" + Decimal(1) + rest;
    NegatedParses(1, rest);
    IndexCommand(line, s, SizeMax, rest);
    SpaceThenByte(b);
    StartIndexOfMax();
    IndexByte(b, s, 0);
  }

  /** `SIZE_MAX + 1` is 0, so is its double. */
  lemma StartIndexOfMax()
    ensures StartIndex(SizeMax) == 0
  {
    var x := (SizeMax + 1) % SizeModulus;
    assert x == 0;
    assert x * 2 % SizeModulus == 0;
  }

  /** An `@` line for an address from the universe's end up to 2^63 - 2 changes
      nothing and reports "index too high". From 2^63 - 1 on, the doubled
      position wraps below 2^64 (see `StartIndexOfMax`), so this does not hold. */
  lemma AddressTooHigh(a: nat, b: byte, s: seq<byte>)
    requires Universe <= a < SizeModulus / 2 - 1 && |s| == SlotCount
    ensures var line := SetLine(a, b); Command(line[..|line| - 1], s) == (s, TooHigh)
  {
    var line := SetLine(a, b);
    var t := line[..|line| - 1];
    var e := EncodeByte(b);
    SetLineText(a, b);
    DecimalParses(a, " " + e);
    IndexCommand(t, s, a, " " + e);
    SpaceThenByte(b);
    IndexPastEnd(e, s, StartIndex(a));
  }

  /** A digit for a position past the last slot fails at once. */
  lemma IndexPastEnd(v: string, s: seq<byte>, i: nat)
    requires |s| == SlotCount && v != [] && 2 * SlotCount <= i
    ensures IndexFrom(v, s, i, 0) == (s, TooHigh)
  {
  }

  /** The `>` lines that `fadeChannel` sends are not understood by the engine:
      they change no slot. */
  lemma FadeLineUnknown(a: nat, mills: nat, b: byte, s: seq<byte>)
    requires |s| == SlotCount
    ensures var line := FadeLine(a, mills, b); Command(line[..|line| - 1], s) == (s, Unknown)
  {
    var line := FadeLine(a, mills, b);
    assert line[0] == '>';
  }

  /** An invalid character after a first frame byte: the error is reported but the
      start code and the byte already decoded stay written. */
  lemma FrameErrorKeepsWritten(b: byte, s: seq<byte>)
    requires |s| == SlotCount
    ensures Command("#" + EncodeByte(b) + "G", s) == (s[0 := 0][1 := b], FrameError)
  {
    var e := EncodeByte(b);
    AppendAssoc("#", e, "G");
    HashCommand(e + "G", s);
    assert Visible(e + "G") == e + "G";
    assert (e + "G")[0..2] == e;
    FrameByte(e + "G", s[0 := 0], 0, b);
  }

  /** A NUL character ends a frame like the end of the line, clearing every later
      slot. */
  lemma NulEndsFrame(b: byte, c: byte, s: seq<byte>)
    requires |s| == SlotCount
    ensures Command("#" + EncodeByte(b) + "\0" + EncodeByte(c), s).0 == [0, b] + seq(Universe - 1, _ => 0)
  {
    var e := EncodeByte(b);
    var line := "#" + e + "\0" + EncodeByte(c);
    var v := e + "\0" + EncodeByte(c);
    assert line[1..] == v;
    assert Visible(v) == v;
    var s0 := s[0 := 0];
    assert v[0..2] == e;
    FrameByte(v, s0, 0, b);
    var s2 := s0[1 := b];
    assert v[2] == '\0';
    assert FrameFrom(v, s2, 4) == (ZeroFrom(s2, 2), "");
    FilledIs(ZeroFrom(s2, 2), [b]);
    assert [0] + [b] == [0, b];
  }

  // ---------------------------------------------------------------------------
  // continueLine

  /** `continueLine` reading the available bytes `input` from index `k` on onto
      `line`: the new line, the index after the last byte read, and whether a
      newline completed the line.  A blank becomes a space unless the line
      already ends in a space.  (`line.back()` is read only for a blank, so an
      empty line must not meet one.) */
  function ContinueFrom(line: string, input: string, k: nat): (r: (string, nat, bool))
    requires k <= |input|
    requires line != [] || k == |input| || (input[k] != ' ' && input[k] != '\t')
    ensures k <= r.1 <= |input|
    ensures |r.0| == |line| + (r.1 - k) - (if r.2 then 1 else 0)
    ensures |r.0| >= |line| && forall j :: 0 <= j < |line| ==> r.0[j] == line[j]
    ensures r.2 ==> r.1 > k && input[r.1 - 1] == '\n'
    ensures !r.2 ==> r.1 == |input|
    ensures forall j :: k <= j < r.1 - (if r.2 then 1 else 0) ==>
      input[j] != '\n' && (r.0[|line| + (j - k)] == input[j] || (input[j] == '\t' && r.0[|line| + (j - k)] == ' '))
    decreases |input| - k
  {
    if k == |input| then (line, k, false)
    else if input[k] == '\n' then (line, k + 1, true)
    else
      var c := if (input[k] == ' ' || input[k] == '\t') && line[|line| - 1] != ' ' then ' ' else input[k];
      ContinueFrom(line + [c], input, k + 1)
  }

  /** `continueLine(fd, line)` over the bytes `input` available before the
      deadline. */
  function Continue(line: string, input: string): (r: (string, nat, bool))
    requires line != [] || input == [] || (input[0] != ' ' && input[0] != '\t')
  {
    ContinueFrom(line, input, 0)
  }

  /** `continueLine(fd, line)`: one byte at a time until a newline or the end
      of what is available. */
  method ContinueLine(line: string, input: string) returns (r: string, used: nat, complete: bool)
    requires line != [] || input == [] || (input[0] != ' ' && input[0] != '\t')
    ensures (r, used, complete) == Continue(line, input)
  {
    r := line;
    used := 0;
    while used < |input|
      invariant 0 <= used <= |input|
      invariant r != [] || used == |input| || (input[used] != ' ' && input[used] != '\t')
      invariant ContinueFrom(r, input, used) == Continue(line, input)
    {
      var c := input[used];
      used := used + 1;
      if c == '\n' {
        return r, used, true;
      }
      if (c == ' ' || c == '\t') && r[|r| - 1] != ' ' {
        r := r + [' '];
      } else {
        r := r + [c];
      }
    }
    return r, used, false;
  }

  /** Runs of blanks are not collapsed: a second blank is kept as it is. */
  lemma BlanksNotCollapsed()
    ensures Continue("x", "\t\t \n") == ("x \t ", 4, true)
  {
    var input := "\t\t \n";
    assert input[3] == '\n';
    assert ContinueFrom("x \t ", input, 3) == ("x \t ", 4, true);
    assert input[2] == ' ' && "x \t"[2] == '\t' && "x \t" + [' '] == "x \t ";
    assert ContinueFrom("x \t", input, 2) == ("x \t ", 4, true);
    assert input[1] == '\t' && "x "[1] == ' ' && "x " + ['\t'] == "x \t";
    assert ContinueFrom("x ", input, 1) == ("x \t ", 4, true);
    assert input[0] == '\t' && "x"[0] == 'x' && "x" + [' '] == "x ";
  }

  // ---------------------------------------------------------------------------
  // The main loop

  /** The loop's write decision: at once after a successful command, otherwise
      once `kMinRefr` has passed since the last write. */
  predicate ShouldWrite(updated: bool, lastWrite: int, now: int)
  {
    updated || lastWrite + MinRefreshMs <= now
  }

  /** The loop's state: the buffer, the pending line, the `updated` flag, the
      time of the last write, and what was written to the device and to the
      error stream so far. */
  datatype State = State(slots: seq<byte>, comm: string, updated: bool, lastWrite: int,
                         frames: seq<seq<byte>>, errors: seq<string>)

  /** The command step of an iteration: a completed non-empty line is run; an
      error is reported on the error stream, a success sets `updated`. */
  function RunLine(st: State, line: string, complete: bool): (r: State)
    requires |st.slots| == SlotCount
    ensures |r.slots| == SlotCount && r.lastWrite == st.lastWrite && r.frames == st.frames
    ensures !(complete && line != []) ==> r == st.(comm := line)
    ensures complete && line != [] ==>
      r.comm == [] && r.slots == Command(line, st.slots).0 &&
      (Command(line, st.slots).1 == "" <==> r.updated && r.errors == st.errors) &&
      (!st.updated ==> (r.updated <==> Command(line, st.slots).1 == ""))
  {
    if complete && line != [] then
      var (s, err) := Command(line, st.slots);
      if err != "" then st.(slots := s, comm := [], errors := st.errors + [err + "\n"])
      else st.(slots := s, comm := [], updated := true)
    else st.(comm := line)
  }

  /** The write step of an iteration at time `now`. */
  function WriteStep(st: State, now: int): (r: State)
    ensures ShouldWrite(st.updated, st.lastWrite, now) ==>
      r == st.(updated := false, frames := st.frames + [st.slots], lastWrite := now)
    ensures !ShouldWrite(st.updated, st.lastWrite, now) ==> r == st
  {
    if ShouldWrite(st.updated, st.lastWrite, now) then
      st.(updated := false, frames := st.frames + [st.slots], lastWrite := now)
    else st
  }

  /** A successful command is written to the device in the same iteration. */
  lemma SuccessWritten(st: State, line: string, now: int)
    requires |st.slots| == SlotCount && line != [] && Command(line, st.slots).1 == ""
    ensures var r := WriteStep(RunLine(st, line, true), now);
      r.frames == st.frames + [Command(line, st.slots).0] && !r.updated && r.lastWrite == now
  {
  }

  /** Without a successful command and with nothing pending, the device is
      written exactly when 20 ms have passed since the last write. */
  lemma IdleRefresh(st: State, line: string, complete: bool, now: int)
    requires |st.slots| == SlotCount && !st.updated
    requires !(complete && line != [] && Command(line, st.slots).1 == "")
    ensures var r := WriteStep(RunLine(st, line, complete), now);
      (|r.frames| == |st.frames| + 1 <==> st.lastWrite + MinRefreshMs <= now) &&
      (|r.frames| == |st.frames| <==> now < st.lastWrite + MinRefreshMs)
  {
  }

  /** The engine process: the slot buffer and the variables of its main loop. */
  class Child {
    var slots: array<byte>
    var comm: string
    var updated: bool
    var lastWrite: int
    var frames: seq<seq<byte>>
    var errors: seq<string>

    predicate Valid()
      reads this
    {
      slots.Length == SlotCount
    }

    function Current(): State
      reads this, slots
    {
      State(slots[..], comm, updated, lastWrite, frames, errors)
    }

    /** The loop's start: a zeroed buffer, `updated` set so that the first
        iteration writes, and the clock read at `start`. */
    constructor(start: int)
      ensures Valid() && fresh(slots)
      ensures Current() == State(seq(SlotCount, _ => 0), [], true, start, [], [])
    {
      slots := new byte[SlotCount](_ => 0);
      comm := [];
      updated := true;
      lastWrite := start;
      frames := [];
      errors := [];
    }

    /** One iteration of the loop on the bytes `input` that arrive, at time
        `now`; returns how many bytes `continueLine` read. */
    method Iterate(input: string, now: int) returns (used: nat)
      requires Valid()
      requires comm != [] || input == [] || (input[0] != ' ' && input[0] != '\t')
      modifies this, slots
      ensures Valid() && slots == old(slots)
      ensures var c := Continue(old(comm), input);
        used == c.1 && Current() == WriteStep(RunLine(old(Current()), c.0, c.2), now)
    {
      var complete: bool;
      comm, used, complete := ContinueLine(comm, input);
      if complete && |comm| > 0 {
        var err := DoCommand(comm, slots);
        if |err| > 0 {
          errors := errors + [err + "\n"];
        } else {
          updated := true;
        }
        comm := [];
      }
      if updated || lastWrite + MinRefreshMs <= now {
        updated := false;
        frames := frames + [slots[..]];
        lastWrite := now;
      }
    }
  }
}
