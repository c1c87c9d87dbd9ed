/** Setting the channels of one instrument from a value string
    (`setChannelValues` and `Instrument::setValue`, dmxctl/interface.cpp:320-375)
    and the arithmetic that spreads one multi-byte number over the selected
    channels. */
module Values {
  import opened Common
  import opened Hex
  import opened Model

  // ---------------------------------------------------------------------------
  // Division facts

  lemma {:induction false} DivUnique(a: nat, d: nat, q: nat, r: nat)
    requires d > 0 && a == q * d + r && r < d
    ensures a / d == q && a % d == r
  {
    var q1, r1 := a / d, a % d;
    assert (q1 - q) * d == r - r1;
    if q1 > q {
      MulAtLeast(q1 - q, d);
    } else if q1 < q {
      MulAtLeast(q - q1, d);
    }
  }

  lemma MulAtLeast(x: int, d: int)
    requires x >= 1 && d > 0
    ensures x * d >= d
  {
  }

  lemma {:induction false} DivDiv(a: nat, b: nat, c: nat)
    requires b > 0 && c > 0
    ensures a / b / c == a / (b * c)
  {
    var q, r := a / b, a % b;
    var q2, r2 := q / c, q % c;
    Regroup(a, q, r, b, q2, r2, c);
    RemainderBound(r2, r, b, c);
    DivUnique(a, b * c, q2, r2 * b + r);
  }

  lemma Regroup(a: int, q: int, r: int, b: int, q2: int, r2: int, c: int)
    requires a == q * b + r && q == q2 * c + r2
    ensures a == q2 * (b * c) + (r2 * b + r)
  {
    calc {
      a;
      q * b + r;
      (q2 * c + r2) * b + r;
      q2 * (b * c) + (r2 * b + r);
    }
  }

  lemma RemainderBound(r2: nat, r: nat, b: nat, c: nat)
    requires r2 < c && r < b
    ensures r2 * b + r < b * c
  {
    assert r2 * b <= (c - 1) * b;
  }

  lemma {:induction false} PowMonotone(b: nat, e1: nat, e2: nat)
    requires b > 0 && e1 <= e2
    ensures Pow(b, e1) <= Pow(b, e2)
    decreases e2
  {
    if e1 < e2 {
      PowMonotone(b, e1, e2 - 1);
    }
  }

  // ---------------------------------------------------------------------------
  // Nibbles and bytes of a number

  /** The byte of `acc` that a channel with value index `vi` receives:
      `acc >> 8*vi`, truncated to `unsigned char`. */
  function ByteAt(acc: nat, vi: nat): byte
  {
    (acc / Pow(256, vi)) % 256
  }

  /** The hex digits of `s`, in order; other characters are skipped. */
  function HexDigits(s: string): (ds: seq<nat>)
    ensures forall k :: 0 <= k < |ds| ==> ds[k] < 16
    ensures |ds| <= |s|
  {
    if s == [] then []
    else
      var n := |s| - 1;
      HexDigits(s[..n]) + (if IsHex(s[n]) then [HexToNybble(s[n])] else [])
  }

  /** The number whose nibbles, least significant first, are `ds`. */
  function Pack(ds: seq<nat>): nat
  {
    if ds == [] then 0 else ds[0] + 16 * Pack(ds[1..])
  }

  /** Digit `k` of `ds`, or 0 past its end. */
  function Nibble(ds: seq<nat>, k: nat): nat
  {
    if k < |ds| then ds[k] else 0
  }

  lemma {:induction false} PackBound(ds: seq<nat>)
    requires forall k :: 0 <= k < |ds| ==> ds[k] < 16
    ensures Pack(ds) < Pow(16, |ds|)
  {
    if ds != [] {
      PackBound(ds[1..]);
    }
  }

  /** Adding the next digit at the top, as the accumulator loop does. */
  lemma {:induction false} PackAppend(ds: seq<nat>, d: nat)
    ensures Pack(ds + [d]) == Pack(ds) + d * Pow(16, |ds|)
  {
    if ds != [] {
      assert (ds + [d])[1..] == ds[1..] + [d];
      PackAppend(ds[1..], d);
    }
  }

  /** Shifting right by `k` nibbles drops the first `k` digits. */
  lemma {:induction false} PackShift(ds: seq<nat>, k: nat)
    requires forall j :: 0 <= j < |ds| ==> ds[j] < 16
    requires k <= |ds|
    ensures Pack(ds) / Pow(16, k) == Pack(ds[k..])
  {
    if k > 0 {
      PackShift(ds[1..], k - 1);
      assert ds[1..][k - 1..] == ds[k..];
      DivUnique(Pack(ds), 16, Pack(ds[1..]), ds[0]);
      DivDiv(Pack(ds), 16, Pow(16, k - 1));
    }
  }

  /** The byte of a packed digit string at value index `vi` is formed by digits
      `2*vi` (low nibble) and `2*vi + 1` (high nibble); missing digits are 0. */
  lemma {:induction false} ByteOfDigits(ds: seq<nat>, vi: nat)
    requires forall k :: 0 <= k < |ds| ==> ds[k] < 16
    ensures ByteAt(Pack(ds), vi) == Nibble(ds, 2 * vi) + 16 * Nibble(ds, 2 * vi + 1)
  {
    var p := Pow(256, vi);
    Pow256(vi);
    if 2 * vi <= |ds| {
      PackShift(ds, 2 * vi);
      var e := ds[2 * vi..];
      assert Pack(ds) / p == Pack(e);
      LowByte(e);
      assert Nibble(e, 0) == Nibble(ds, 2 * vi) && Nibble(e, 1) == Nibble(ds, 2 * vi + 1);
    } else {
      PackBound(ds);
      PowMonotone(16, |ds|, 2 * vi);
      DivUnique(Pack(ds), p, 0, Pack(ds));
    }
  }

  /** The low byte of a packed digit string is formed by its first two digits. */
  lemma LowByte(e: seq<nat>)
    requires forall k :: 0 <= k < |e| ==> e[k] < 16
    ensures Pack(e) % 256 == Nibble(e, 0) + 16 * Nibble(e, 1)
  {
    if |e| >= 2 {
      assert Pack(e) == e[0] + 16 * (e[1] + 16 * Pack(e[2..])) by {
        assert e[1..][1..] == e[2..];
      }
      DivUnique(Pack(e), 256, Pack(e[2..]), e[0] + 16 * e[1]);
    } else if |e| == 1 {
      assert e[1..] == [];
      DivUnique(Pack(e), 256, 0, e[0]);
    }
  }

  /** All `n` low bytes of 256^n - 1 are 255, the bytes above are 0. */
  lemma {:induction false} FullBytes(n: nat, vi: nat)
    ensures ByteAt(Pow(256, n) - 1, vi) == if vi < n then 255 else 0
  {
    if vi < n {
      ShiftFull(n, vi);
      LowByteFull(n - vi);
    } else {
      PowMonotone(256, n, vi);
      DivUnique(Pow(256, n) - 1, Pow(256, vi), 0, Pow(256, n) - 1);
    }
  }

  /** (256^n - 1) >> 8*vi is 256^(n - vi) - 1. */
  lemma {:induction false} ShiftFull(n: nat, vi: nat)
    requires vi <= n
    ensures (Pow(256, n) - 1) / Pow(256, vi) == Pow(256, n - vi) - 1
  {
    var p, top := Pow(256, vi), Pow(256, n - vi);
    PowAdd(256, n - vi, vi);
    assert Pow(256, n) - 1 == (top - 1) * p + (p - 1);
    DivUnique(Pow(256, n) - 1, p, top - 1, p - 1);
  }

  lemma {:induction false} LowByteFull(m: nat)
    requires m > 0
    ensures (Pow(256, m) - 1) % 256 == 255
  {
    assert Pow(256, m) - 1 == (Pow(256, m - 1) - 1) * 256 + 255;
    DivUnique(Pow(256, m) - 1, 256, Pow(256, m - 1) - 1, 255);
  }

  // ---------------------------------------------------------------------------
  // The accumulator of setChannelValues

  /** Whether a value string takes the hex branch (`#` or `0x` prefix). */
  predicate HexString(val: string)
  {
    StartsWith(val, "#") || StartsWith(val, "0x")
  }

  /** The digits the hex branch consumes: hex characters from index 1 on (so the
      `x` of `0x` is skipped as a non-digit), at most two per channel. */
  function ConsumedDigits(val: string, n: nat): (ds: seq<nat>)
    ensures |ds| <= 2 * n
    ensures forall k :: 0 <= k < |ds| ==> ds[k] < 16
  {
    var all := HexDigits(if val == [] then [] else val[1..]);
    if |all| <= 2 * n then all else all[..2 * n]
  }

  /** The inputs for which the source's arithmetic is defined: at most eight
      selected channels, value indices below 8 (a 64-bit shift), and a numeric
      string only "0" or "1" with at most three channels (`1 << 8*n` on `int`). */
  predicate ValueDefined(inst: Instrument, sel: seq<nat>, val: string)
  {
    && 0 < |sel| <= 8
    && (forall k :: 0 <= k < |sel| ==> sel[k] < |inst.channels| && inst.channels[sel[k]].valindex < 8)
    && (!HexString(val) && RangeIndex(inst.channels[sel[0]], val) == -1 ==>
          (val == "0" || val == "1") && |sel| <= 3)
  }

  /** The number spread over the selected channels: the hex digits, the
      minimum of the first channel's discrete value named `val`, or
      `val * (256^n - 1)` for the numeric strings. */
  function Accumulator(inst: Instrument, sel: seq<nat>, val: string): (acc: nat)
    requires ValueDefined(inst, sel, val)
    ensures HexString(val) ==> acc == Pack(ConsumedDigits(val, |sel|)) && acc < Pow(256, |sel|)
    ensures !HexString(val) && RangeIndex(inst.channels[sel[0]], val) >= 0 ==>
      acc == inst.channels[sel[0]].values.list[RangeIndex(inst.channels[sel[0]], val)].min
    ensures !HexString(val) && RangeIndex(inst.channels[sel[0]], val) == -1 ==>
      acc == if val == "1" then Pow(256, |sel|) - 1 else 0
  {
    var front := inst.channels[sel[0]];
    if HexString(val) then
      var ds := ConsumedDigits(val, |sel|);
      PackBound(ds);
      PowMonotone(16, |ds|, 2 * |sel|);
      Pow256(|sel|);
      Pack(ds)
    else if RangeIndex(front, val) != -1 then RangeMinimum(front, val)
    else if val == "1" then Pow(256, |sel|) - 1
    else 0
  }

  /** The instrument with each selected channel set to its byte of `acc`. */
  function Assigned(inst: Instrument, sel: seq<nat>, acc: nat): (r: Instrument)
    ensures r.name == inst.name && r.addr == inst.addr && |r.channels| == |inst.channels|
    ensures forall k :: 0 <= k < |inst.channels| ==>
      r.channels[k] == if k in sel then inst.channels[k].(value := ByteAt(acc, inst.channels[k].valindex))
                       else inst.channels[k]
  {
    inst.(channels := seq(|inst.channels|, k requires 0 <= k < |inst.channels| =>
      if k in sel then inst.channels[k].(value := ByteAt(acc, inst.channels[k].valindex))
      else inst.channels[k]))
  }

  /** Setting values changes nothing but `value` fields, so well-formedness and
      every selection by name or role survive it. */
  lemma {:induction false} AssignedKeepsShape(inst: Instrument, sel: seq<nat>, acc: nat, key: Key)
    ensures WellFormed(inst) ==> WellFormed(Assigned(inst, sel, acc))
    ensures Select(Assigned(inst, sel, acc), key) == Select(inst, key)
  {
    var r := Assigned(inst, sel, acc);
    SelectSameKeys(inst, r, key);
  }

  /** Two instruments whose channels agree except in `value` select alike. */
  lemma {:induction false} SelectSameKeys(a: Instrument, b: Instrument, key: Key)
    requires |a.channels| == |b.channels|
    requires forall k :: 0 <= k < |a.channels| ==>
      a.channels[k].name == b.channels[k].name && a.channels[k].target == b.channels[k].target
    ensures Select(a, key) == Select(b, key)
  {
    PositionsAlike(a.channels, b.channels, key);
  }

  lemma {:induction false} PositionsAlike(a: seq<Channel>, b: seq<Channel>, key: Key)
    requires |a| == |b|
    requires forall k :: 0 <= k < |a| ==> a[k].name == b[k].name && a[k].target == b[k].target
    ensures Positions(a, (c: Channel) => Matches(c, key)) == Positions(b, (c: Channel) => Matches(c, key))
  {
    if a != [] {
      var n := |a| - 1;
      PositionsAlike(a[..n], b[..n], key);
    }
  }

  // ---------------------------------------------------------------------------
  // The operations

  /** `setChannelValues`: the accumulator (a loop over the string in the hex
      branch), then the assignment loop over the selected channels. */
  method SetChannelValues(inst: Instrument, sel: seq<nat>, val: string) returns (r: Instrument)
    requires ValueDefined(inst, sel, val)
    ensures r == Assigned(inst, sel, Accumulator(inst, sel, val))
  {
    var acc: nat := 0;
    if HexString(val) {
      acc := AccumulateHex(val, |sel|);
    } else if RangeIndex(inst.channels[sel[0]], val) != -1 {
      acc := RangeMinimum(inst.channels[sel[0]], val);
    } else if val == "1" {
      acc := Pow(256, |sel|) - 1;
    }
    r := AssignAll(inst, sel, acc);
  }

  /** The hex loop: from index 1, each hex digit is or-ed in at the next nibble
      (the nibbles are disjoint, so `|` is `+`), until `2*n` digits are in. */
  method AccumulateHex(val: string, n: nat) returns (acc: nat)
    requires val != []
    ensures acc == Pack(ConsumedDigits(val, n))
  {
    var s := val[1..];
    acc := 0;
    var nybble := 0;
    var i := 0;
    while i < |s| && nybble < 2 * n
      invariant 0 <= i <= |s|
      invariant nybble == |HexDigits(s[..i])| <= 2 * n
      invariant acc == Pack(HexDigits(s[..i]))
    {
      assert s[..i + 1][..i] == s[..i];
      var nv := HexToNybble(s[i]);
      if nv != -1 {
        assert HexDigits(s[..i + 1]) == HexDigits(s[..i]) + [nv];
        PackAppend(HexDigits(s[..i]), nv);
        acc := acc + nv * Pow(16, nybble);
        nybble := nybble + 1;
      } else {
        assert HexDigits(s[..i + 1]) == HexDigits(s[..i]);
      }
      i := i + 1;
    }
    HexDigitsPrefix(s, i);
    var all := HexDigits(s);
    if i == |s| {
      assert s[..i] == s;
    } else {
      assert HexDigits(s[..i]) == all[..2 * n];
      if |all| == 2 * n {
        assert all[..2 * n] == all;
      }
    }
  }

  /** The assignment loop: `chan->value = acc >> 8*valindex` for each selected
      channel. */
  method AssignAll(inst: Instrument, sel: seq<nat>, acc: nat) returns (r: Instrument)
    requires forall k :: 0 <= k < |sel| ==> sel[k] < |inst.channels|
    ensures r == Assigned(inst, sel, acc)
  {
    r := inst;
    var j := 0;
    while j < |sel|
      invariant 0 <= j <= |sel|
      invariant r == Assigned(inst, sel[..j], acc)
    {
      var k := sel[j];
      r := r.(channels := r.channels[k := r.channels[k].(value := ByteAt(acc, r.channels[k].valindex))]);
      assert forall m :: m in sel[..j + 1] <==> m in sel[..j] || m == k by {
        assert sel[..j + 1] == sel[..j] + [k];
      }
      j := j + 1;
    }
    assert sel[..j] == sel;
  }

  /** The digits of a prefix of `s` are a prefix of the digits of `s`. */
  lemma {:induction false} HexDigitsPrefix(s: string, i: nat)
    requires i <= |s|
    ensures |HexDigits(s[..i])| <= |HexDigits(s)|
    ensures HexDigits(s[..i]) == HexDigits(s)[..|HexDigits(s[..i])|]
    decreases |s| - i
  {
    if i < |s| {
      var n := |s| - 1;
      assert s[..n][..i] == s[..i];
      HexDigitsPrefix(s[..n], i);
    } else {
      assert s[..i] == s;
    }
  }

  /** The instrument after `setValue(key, val)`: the channels `key` selects get
      their bytes of the accumulator, every other channel and all other fields
      stay as they were. */
  function Updated(inst: Instrument, key: Key, val: string): (r: Instrument)
    requires Select(inst, key) != [] ==> ValueDefined(inst, Select(inst, key), val)
    ensures Skeleton(r) == Skeleton(inst) && |r.channels| == |inst.channels|
  {
    var sel := Select(inst, key);
    if sel == [] then inst
    else
      AssignedSkeleton(inst, sel, Accumulator(inst, sel, val));
      Assigned(inst, sel, Accumulator(inst, sel, val))
  }

  /** `setValue` changes exactly the channels the key selects, each to its
      byte of the accumulated number. */
  lemma UpdatedMeaning(inst: Instrument, key: Key, val: string)
    requires Select(inst, key) != [] ==> ValueDefined(inst, Select(inst, key), val)
    ensures var r := Updated(inst, key, val);
      && (forall k :: 0 <= k < |inst.channels| && !Matches(inst.channels[k], key) ==>
            r.channels[k] == inst.channels[k])
      && (Select(inst, key) != [] ==> forall k :: 0 <= k < |inst.channels| && Matches(inst.channels[k], key) ==>
            r.channels[k].value == ByteAt(Accumulator(inst, Select(inst, key), val), inst.channels[k].valindex))
  {
  }

  /** `Instrument::setValue`: false, and no change, when no channel matches the
      key; otherwise true, with the matching channels set from `val`. */
  method SetValue(inst: Instrument, key: Key, val: string) returns (found: bool, r: Instrument)
    requires Select(inst, key) != [] ==> ValueDefined(inst, Select(inst, key), val)
    ensures found <==> exists k :: 0 <= k < |inst.channels| && Matches(inst.channels[k], key)
    ensures r == Updated(inst, key, val)
  {
    var sel := Select(inst, key);
    if |sel| == 0 {
      return false, inst;
    }
    assert sel[0] in sel;
    r := SetChannelValues(inst, sel, val);
    found := true;
  }

  // ---------------------------------------------------------------------------
  // The shape of an instrument: everything but the channel values

  function Skeleton(inst: Instrument): (r: Instrument)
    ensures r.name == inst.name && r.addr == inst.addr && |r.channels| == |inst.channels|
  {
    inst.(channels := seq(|inst.channels|, k requires 0 <= k < |inst.channels| => inst.channels[k].(value := 0)))
  }

  lemma {:induction false} AssignedSkeleton(inst: Instrument, sel: seq<nat>, acc: nat)
    ensures Skeleton(Assigned(inst, sel, acc)) == Skeleton(inst)
  {
    var r := Assigned(inst, sel, acc);
    assert forall k :: 0 <= k < |inst.channels| ==> r.channels[k].(value := 0) == inst.channels[k].(value := 0);
  }

  /** Instruments of the same shape agree in every field but the values. */
  lemma {:induction false} SkeletonFields(a: Instrument, b: Instrument)
    requires Skeleton(a) == Skeleton(b)
    ensures a.name == b.name && a.addr == b.addr && |a.channels| == |b.channels|
    ensures forall k :: 0 <= k < |a.channels| ==>
      && a.channels[k].chanid == b.channels[k].chanid
      && a.channels[k].name == b.channels[k].name
      && a.channels[k].valindex == b.channels[k].valindex
      && a.channels[k].target == b.channels[k].target
      && a.channels[k].values == b.channels[k].values
  {
    assert |Skeleton(a).channels| == |Skeleton(b).channels|;
    forall k | 0 <= k < |a.channels|
      ensures a.channels[k].(value := 0) == b.channels[k].(value := 0)
    {
      assert Skeleton(a).channels[k] == Skeleton(b).channels[k];
    }
  }

  /** Selection, definedness and the accumulator only look at the shape. */
  lemma {:induction false} SkeletonTransfer(a: Instrument, b: Instrument, key: Key, val: string)
    requires Skeleton(a) == Skeleton(b)
    ensures Select(a, key) == Select(b, key)
    ensures Select(a, key) != [] ==>
      (ValueDefined(a, Select(a, key), val) <==> ValueDefined(b, Select(b, key), val))
  {
    SkeletonFields(a, b);
    SelectSameKeys(a, b, key);
    var sel := Select(a, key);
    if sel != [] {
      RangeIndexSameValues(a.channels[sel[0]], b.channels[sel[0]], val);
    }
  }

  lemma RangeIndexSameValues(a: Channel, b: Channel, val: string)
    requires a.values == b.values
    ensures RangeIndex(a, val) == RangeIndex(b, val)
  {
  }

  // ---------------------------------------------------------------------------
  // What a value string does to one channel

  /** In the hex branch the channel with value index `vi` receives digits `2*vi`
      and `2*vi + 1` of the string, low nibble first ("#F0" gives 0x0F). */
  lemma {:induction false} HexChannelByte(inst: Instrument, sel: seq<nat>, val: string, vi: nat)
    requires ValueDefined(inst, sel, val) && HexString(val)
    ensures var ds := ConsumedDigits(val, |sel|);
      ByteAt(Accumulator(inst, sel, val), vi) == Nibble(ds, 2 * vi) + 16 * Nibble(ds, 2 * vi + 1)
  {
    ByteOfDigits(ConsumedDigits(val, |sel|), vi);
  }

  /** "1" sets every selected channel whose value index is below the number of
      selected channels to 255, and any higher one to 0; "0" sets all to 0. */
  lemma {:induction false} NumericChannelByte(inst: Instrument, sel: seq<nat>, val: string, vi: nat)
    requires ValueDefined(inst, sel, val) && !HexString(val)
    requires RangeIndex(inst.channels[sel[0]], val) == -1
    ensures ByteAt(Accumulator(inst, sel, val), vi) ==
      if val == "1" && vi < |sel| then 255 else 0
  {
    if val == "1" {
      FullBytes(|sel|, vi);
    } else {
      assert Accumulator(inst, sel, val) == 0;
    }
  }
}
