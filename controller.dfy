/** The controller object `DmxCtl` (dmxctl/interface.h:90-145): its vector of
    instruments, which its methods update in place, and the lines it writes
    down the pipe to the engine process, kept here as the sequence `sent`. */
module Controller {
  import opened Common
  import opened Hex
  import opened Model
  import opened Descriptor
  import opened Values
  import opened Frame
  import opened Scene
  import opened Control

  /** Shape-preserving updates keep every instrument well formed. */
  lemma {:induction false} ShapeWellFormed(a: seq<Instrument>, b: seq<Instrument>)
    requires SameShape(a, b) && forall i :: 0 <= i < |a| ==> WellFormed(a[i])
    ensures forall i :: 0 <= i < |b| ==> WellFormed(b[i])
  {
    forall i | 0 <= i < |b| ensures WellFormed(b[i]) {
      SkeletonFields(a[i], b[i]);
    }
  }

  /** Setting the selected channels of an instrument changes it exactly when
      some selected channel did not already hold its new byte. */
  lemma {:induction false} AssignedChanges(inst: Instrument, sel: seq<nat>, acc: nat)
    requires forall m :: 0 <= m < |sel| ==> sel[m] < |inst.channels|
    ensures Assigned(inst, sel, acc) != inst <==>
      exists m :: 0 <= m < |sel| && inst.channels[sel[m]].value != ByteAt(acc, inst.channels[sel[m]].valindex)
  {
    var r := Assigned(inst, sel, acc);
    if exists m :: 0 <= m < |sel| && inst.channels[sel[m]].value != ByteAt(acc, inst.channels[sel[m]].valindex) {
      var m :| 0 <= m < |sel| && inst.channels[sel[m]].value != ByteAt(acc, inst.channels[sel[m]].valindex);
      assert sel[m] in sel;
      assert r.channels[sel[m]] != inst.channels[sel[m]];
    } else {
      forall k | 0 <= k < |inst.channels| ensures r.channels[k] == inst.channels[k] {
        if k in sel {
          var m :| 0 <= m < |sel| && sel[m] == k;
        }
      }
      assert r.channels == inst.channels;
    }
  }

  /** One step of the assignment loop: the next selected channel, untouched so
      far because the selection is strictly ascending, gets its byte. */
  lemma {:induction false} AssignedStep(inst: Instrument, sel: seq<nat>, acc: nat, j: nat)
    requires forall m :: 0 <= m < |sel| ==> sel[m] < |inst.channels|
    requires forall a, b :: 0 <= a < b < |sel| ==> sel[a] < sel[b]
    requires j < |sel|
    ensures var r := Assigned(inst, sel[..j], acc); var k := sel[j];
      && r.channels[k] == inst.channels[k]
      && Assigned(inst, sel[..j + 1], acc) == r.(channels := r.channels[k := r.channels[k].(value := ByteAt(acc, r.channels[k].valindex))])
  {
    var k := sel[j];
    assert k !in sel[..j];
    assert forall m :: m in sel[..j + 1] <==> m in sel[..j] || m == k by {
      assert sel[..j + 1] == sel[..j] + [k];
    }
  }

  /** The inner loop of `setValues` on one instrument: every selected channel gets
      its byte of `acc`; `changed` records whether some byte differed from the
      old one. */
  method LevelChannels(inst: Instrument, sel: seq<nat>, acc: nat) returns (r: Instrument, changed: bool)
    requires forall m :: 0 <= m < |sel| ==> sel[m] < |inst.channels|
    requires forall a, b :: 0 <= a < b < |sel| ==> sel[a] < sel[b]
    ensures r == Assigned(inst, sel, acc)
    ensures changed <==> r != inst
  {
    r := inst;
    changed := false;
    var j := 0;
    while j < |sel|
      invariant 0 <= j <= |sel|
      invariant r == Assigned(inst, sel[..j], acc)
      invariant changed <==> r != inst
    {
      var k := sel[j];
      AssignedStep(inst, sel, acc, j);
      var before := r.channels[k].value;
      ChannelChanges(inst, r, k, ByteAt(acc, r.channels[k].valindex));
      r := r.(channels := r.channels[k := r.channels[k].(value := ByteAt(acc, r.channels[k].valindex))]);
      if before != r.channels[k].value {
        changed := true;
      }
      j := j + 1;
    }
    assert sel[..j] == sel;
  }

  /** Giving channel `k`, not yet changed, the value `v` makes `r` differ from
      `inst` exactly when it differed already or `v` is a new value. */
  lemma ChannelChanges(inst: Instrument, r: Instrument, k: nat, v: byte)
    requires r.name == inst.name && r.addr == inst.addr && |r.channels| == |inst.channels|
    requires k < |r.channels| && r.channels[k] == inst.channels[k]
    ensures r.(channels := r.channels[k := r.channels[k].(value := v)]) != inst <==>
      r != inst || v != inst.channels[k].value
  {
    UpdateDiffers(r.channels, inst.channels, k, r.channels[k].(value := v));
    assert r == inst <==> r.channels == inst.channels;
  }

  class DmxCtl {
    /** The instruments, in file order. */
    var instruments: seq<Instrument>
    /** Every line written to the engine so far, oldest first. */
    var sent: seq<string>

    /** The construction invariants of every instrument. */
    predicate Valid()
      reads this
    {
      forall i :: 0 <= i < |instruments| ==> WellFormed(instruments[i])
    }

    /** The controller over the instruments the descriptor produced (the
        descriptor itself is read by `Builder.Build`); nothing is sent yet. */
    constructor (insts: seq<Instrument>)
      requires forall i :: 0 <= i < |insts| ==> WellFormed(insts[i])
      ensures Valid()
      ensures instruments == insts && sent == []
    {
      instruments := insts;
      sent := [];
    }

    /** `operator[](size_t)`: the channel of the first instrument covering
        `idx`, or the "undefined channel" exception. */
    method ChannelAt(idx: nat) returns (r: Result<ChannelRef, string>)
      ensures r == At(instruments, idx)
    {
      var i := 0;
      while i < |instruments|
        invariant 0 <= i <= |instruments|
        invariant forall j :: 0 <= j < i ==> !Covers(instruments[j], idx)
      {
        if instruments[i].addr <= idx < instruments[i].addr + |instruments[i].channels| {
          return Ok(ChannelRef(i, idx - instruments[i].addr));
        }
        i := i + 1;
      }
      return Err(UndefinedChannel);
    }

    /** `getSlots` as written: the cursor `ini` walks the instruments, and the
        slot on which it moves past an instrument is left as it was. */
    method GetSlotsAsWritten(slots: array<byte>)
      requires slots.Length == Universe
      modifies slots
      ensures slots[..] == SlotsAsWritten(instruments, old(slots[..]))
    {
      var ini := 0;
      var chi := 0;
      while chi < Universe
        invariant 0 <= chi <= Universe
        invariant ini == Cursor(instruments, chi)
        invariant forall k :: 0 <= k < chi ==>
          slots[k] == if Writes(instruments, k) then Written(instruments, k) else old(slots[k])
        invariant forall k :: chi <= k < Universe ==> slots[k] == old(slots[k])
      {
        if ini < |instruments| && instruments[ini].addr <= chi {
          if chi < instruments[ini].addr + |instruments[ini].channels| {
            slots[chi] := instruments[ini].channels[chi - instruments[ini].addr].value;
          } else {
            ini := ini + 1;
          }
        } else {
          slots[chi] := 0;
        }
        chi := chi + 1;
      }
    }

    /** `getSlots` as intended: slot `idx` holds the channel that
        `operator[](idx)` finds there, 0 where none is defined. */
    method GetSlots(slots: array<byte>)
      requires slots.Length == Universe
      modifies slots
      ensures slots[..] == Slots(instruments)
    {
      var chi := 0;
      while chi < Universe
        invariant 0 <= chi <= Universe
        invariant forall k :: 0 <= k < chi ==> slots[k] == SlotValue(instruments, k)
      {
        var r := ChannelAt(chi);
        var v := if r.Ok? then instruments[r.value.inst].channels[r.value.chan].value else 0;
        assert v == SlotValue(instruments, chi);
        slots[chi] := v;
        chi := chi + 1;
      }
      assert forall k :: 0 <= k < Universe ==> slots[..][k] == Slots(instruments)[k];
    }

    /** `writeOut`: the frame of the instruments, as `#`, 512 hex pairs and a
        newline. */
    method WriteOut()
      modifies this
      ensures instruments == old(instruments)
      ensures sent == old(sent) + [FrameOf(instruments)]
    {
      var slots := new byte[Universe](_ => 0);
      GetSlots(slots);
      var line := EncodeSlots(slots);
      sent := sent + [line + "\n"];
    }

    /** The loop of `writeOut` that appends the hex pair of every slot to "#". */
    static method EncodeSlots(slots: array<byte>) returns (line: string)
      requires slots.Length == Universe
      ensures line == "#" + EncodeFrame(slots[..])
    {
      line := "#";
      var k := 0;
      while k < Universe
        invariant 0 <= k <= Universe
        invariant line == "#" + EncodeFrame(slots[..k])
      {
        assert slots[..k + 1] == slots[..k] + [slots[k]];
        EncodeFrameSnoc(slots[..k], slots[k]);
        AppendAssoc("#", EncodeFrame(slots[..k]), EncodeByte(slots[k]));
        line := line + [Hexits[slots[k] % 16], Hexits[slots[k] / 16]];
        k := k + 1;
      }
      assert slots[..k] == slots[..];
    }

    /** `setChannel`: throws for an undefined address; otherwise sets the channel
        and sends the `@` line. */
    method SetChannel(idx: nat, b: byte) returns (err: Option<string>)
      requires Valid()
      modifies this
      ensures Valid()
      ensures SameShape(old(instruments), instruments)
      ensures SetAt(old(instruments), idx, b).Err? ==>
        err == Some(UndefinedChannel) && instruments == old(instruments) && sent == old(sent)
      ensures SetAt(old(instruments), idx, b).Ok? ==>
        err.None? && instruments == SetAt(old(instruments), idx, b).value && sent == old(sent) + [SetLine(idx, b)]
    {
      var r := ChannelAt(idx);
      if r.Err? {
        return Some(r.error);
      }
      var ref := r.value;
      var inst := instruments[ref.inst];
      SetAtEffect(instruments, idx, b);
      ShapeWellFormed(instruments, SetAt(instruments, idx, b).value);
      instruments := instruments[ref.inst := inst.(channels := inst.channels[ref.chan := inst.channels[ref.chan].(value := b)])];
      sent := sent + ["@" + Decimal(idx) + " " + [Hexits[b % 16], Hexits[b / 16]] + "\n"];
      err := None;
    }

    /** `fadeChannel`: throws for an undefined address; otherwise sets the
        channel to the target byte and sends the `>` line. */
    method FadeChannel(idx: nat, mills: nat, b: byte) returns (err: Option<string>)
      requires Valid()
      modifies this
      ensures Valid()
      ensures SameShape(old(instruments), instruments)
      ensures SetAt(old(instruments), idx, b).Err? ==>
        err == Some(UndefinedChannel) && instruments == old(instruments) && sent == old(sent)
      ensures SetAt(old(instruments), idx, b).Ok? ==>
        err.None? && instruments == SetAt(old(instruments), idx, b).value && sent == old(sent) + [FadeLine(idx, mills, b)]
    {
      var r := ChannelAt(idx);
      if r.Err? {
        return Some(r.error);
      }
      var ref := r.value;
      var inst := instruments[ref.inst];
      SetAtEffect(instruments, idx, b);
      ShapeWellFormed(instruments, SetAt(instruments, idx, b).value);
      instruments := instruments[ref.inst := inst.(channels := inst.channels[ref.chan := inst.channels[ref.chan].(value := b)])];
      sent := sent + [">" + Decimal(idx) + " " + Decimal(mills) + " " + [Hexits[b % 16], Hexits[b / 16]] + "\n"];
      err := None;
    }

    /** The body of the loop of `setValues` for the instrument at position `i`. */
    method LevelInstrument(i: nat, targ: TargetType, level: nat) returns (changed: bool)
      requires i < |instruments|
      modifies this
      ensures instruments == old(instruments)[i := LevelOne(old(instruments)[i], targ, level)]
      ensures changed <==> instruments[i] != old(instruments)[i]
      ensures sent == old(sent)
    {
      var inst := instruments[i];
      var sel := Select(inst, Role(targ));
      var r, ch := LevelChannels(inst, sel, Level(|sel|, level));
      instruments := instruments[i := r];
      changed := ch;
    }

    /** `setValues(targ, level)` for the levels 0 and 1: the channels of the
        role get their bytes of (256^n - 1) * level; the result says whether any
        byte changed. */
    method SetValues(targ: TargetType, level: nat) returns (changed: bool)
      requires Valid() && LevelDefined(instruments, targ) && level <= 1
      modifies this
      ensures Valid()
      ensures instruments == Leveled(old(instruments), targ, level)
      ensures changed <==> instruments != old(instruments)
      ensures sent == old(sent)
    {
      ghost var before := instruments;
      changed := false;
      var i := 0;
      LeveledAll(before, targ, level);
      while i < |instruments|
        invariant 0 <= i <= |before|
        invariant instruments == LeveledUpTo(before, targ, level, i)
        invariant changed <==> instruments != before
        invariant sent == old(sent) && before == old(instruments)
      {
        LeveledStep(before, targ, level, i);
        ghost var mid := instruments;
        var ch := LevelInstrument(i, targ, level);
        UpdateDiffers(mid, before, i, instruments[i]);
        changed := changed || ch;
        i := i + 1;
      }
      ShapeWellFormed(before, instruments);
    }
  
    // -------------------------------------------------------------------------
    // loadScene

    /** `inst->setValue(key, val)` on the instrument at position `i`. */
    method SetOne(i: nat, key: Key, val: string)
      requires i < |instruments|
      requires Select(instruments[i], key) != [] ==> ValueDefined(instruments[i], Select(instruments[i], key), val)
      modifies this
      ensures instruments == old(instruments)[i := Updated(old(instruments)[i], key, val)]
      ensures sent == old(sent)
    {
      var found, r := SetValue(instruments[i], key, val);
      instruments := instruments[i := r];
    }

    /** The innermost loop of `loadScene`: `inst->setValue(key, val)` on every
        instrument an entry names. */
    method SetEachValue(named: seq<nat>, key: Key, val: string)
      requires Ascending(named) && SetDefined(instruments, named, key, val)
      modifies this
      ensures instruments == SetEach(old(instruments), named, key, val)
      ensures sent == old(sent)
    {
      ghost var before := instruments;
      var j := 0;
      while j < |named|
        invariant 0 <= j <= |named|
        invariant instruments == SetEachUpTo(before, named, key, val, j)
        invariant sent == old(sent) && before == old(instruments)
      {
        SetEachStep(before, named, key, val, j);
        SetOne(named[j], key, val);
        j := j + 1;
      }
      assert named[..j] == named;
    }

    /** The loop of `loadScene` over the channel keys of one entry; a value
        that is not a scalar throws at its conversion to a string. */
    method ApplyChannelKeys(named: seq<nat>, ces: seq<(string, Node)>) returns (err: Option<string>)
      requires Ascending(named) && (forall j :: 0 <= j < |named| ==> named[j] < |instruments|)
      requires ChannelsDefined(instruments, named, ces)
      modifies this
      ensures Outcome(instruments, err) == ApplyChannels(old(instruments), named, ces)
      ensures sent == old(sent)
    {
      ghost var before := instruments;
      var m := 0;
      while m < |ces|
        invariant 0 <= m <= |ces|
        invariant ChannelsDefined(before, named, ces[..m])
        invariant Outcome(instruments, None) == ApplyChannels(before, named, ces[..m])
        invariant sent == old(sent) && before == old(instruments)
      {
        ChannelsDefinedPrefix(before, named, ces, m + 1);
        assert ces[..m + 1][..m] == ces[..m];
        if named != [] && !ces[m].1.Scalar? {
          ChannelsErrorPersists(before, named, ces, m + 1, Outcome(instruments, Some(BadConversion)));
          return Some(BadConversion);
        }
        if named != [] {
          SetDefinedTransfer(before, instruments, named, KeyOf(ces[m].0), ces[m].1.text);
          SetEachValue(named, KeyOf(ces[m].0), ces[m].1.text);
        }
        m := m + 1;
      }
      assert ces[..m] == ces;
      return None;
    }

    /** The loop of `loadScene` over the entries of the scene document. */
    method ApplyScene(es: seq<(string, Node)>) returns (err: Option<string>)
      requires SceneDefined(instruments, Mapping(es))
      modifies this
      ensures Outcome(instruments, err) == ApplyEntries(old(instruments), es)
      ensures sent == old(sent)
    {
      ghost var before := instruments;
      var k := 0;
      while k < |es|
        invariant 0 <= k <= |es|
        invariant SceneDefined(before, Mapping(es[..k]))
        invariant Outcome(instruments, None) == ApplyEntries(before, es[..k])
        invariant sent == old(sent) && before == old(instruments)
      {
        SceneDefinedPrefix(before, es, k + 1);
        assert es[..k + 1][..k] == es[..k];
        var named := WithPrefix(instruments, es[k].0);
        var ces := ChannelEntries(es[k].1);
        EntryDefined(before, instruments, es, k);
        var e := ApplyChannelKeys(named, ces);
        if e.Some? {
          EntriesErrorPersists(before, es, k + 1, Outcome(instruments, e));
          return e;
        }
        k := k + 1;
      }
      assert es[..k] == es;
      return None;
    }

    /** `loadScene`: an invalid scene throws before any channel changes; a valid
        one is applied entry by entry. */
    method LoadScene(doc: Node) returns (err: Option<string>)
      requires Valid() && (SceneValid(instruments, doc) ==> SceneDefined(instruments, doc))
      modifies this
      ensures Valid()
      ensures Outcome(instruments, err) == Scene.LoadScene(old(instruments), doc)
      ensures sent == old(sent)
    {
      var e := CheckScene(instruments, doc);
      if e != "" {
        return Some("[DmxCtl::loadScene] " + e);
      }
      err := ApplyScene(doc.entries);
      ShapeWellFormed(old(instruments), instruments);
    }

    // -------------------------------------------------------------------------
    // execute

    /** The fades over `done` from `before` succeeded, leading to the current
        instruments and to the lines sent after `base`. */
    ghost predicate Faded(before: seq<Instrument>, done: seq<nat>, mills: nat, b: byte, base: seq<string>)
      reads this
    {
      var e := Fades(before, done, mills, b);
      e.error.None? && instruments == e.insts && sent == base + e.lines
    }

    /** One `fadeChannel` call of `execute` on an address that the instrument
        at position `i` covers: it cannot throw, and it extends the fades. */
    method FadeAddress(i: nat, a: nat, mills: nat, b: byte, ghost before: seq<Instrument>, ghost done: seq<nat>, ghost base: seq<string>)
      requires Valid() && i < |instruments| && Covers(instruments[i], a)
      requires SameShape(before, instruments) && Faded(before, done, mills, b, base)
      modifies this
      ensures Valid() && SameShape(before, instruments)
      ensures Faded(before, done + [a], mills, b, base)
    {
      assert Covered(instruments, a);
      FadesStep(before, done, a, mills, b);
      ghost var mid := instruments;
      var err := FadeChannel(a, mills, b);
      assert instruments == SetAt(mid, a, b).value && sent == old(sent) + [FadeLine(a, mills, b)];
      AppendAssoc(base, Fades(before, done, mills, b).lines, [FadeLine(a, mills, b)]);
      SameShapeTrans(before, mid, instruments);
    }

    /** The `k`-th master channel of the instrument that was at position `i`
        still lies in the instrument at position `i`. */
    static lemma MasterCovered(before: seq<Instrument>, now: seq<Instrument>, i: nat, inst: Instrument, ms: seq<nat>, k: nat)
      requires SameShape(before, now) && i < |before| && Skeleton(before[i]) == Skeleton(inst)
      requires WellFormed(inst) && ms == Select(inst, Role(Master)) && k < |ms|
      ensures Covers(now[i], inst.addr + inst.channels[ms[k]].chanid)
    {
      assert ms[k] in ms;
    }

    /** The inner fade loop of `execute` over the master channels of the
        instrument at position `i`. */
    method FadeInstrument(i: nat, mills: nat, b: byte, ghost before: seq<Instrument>, ghost done: seq<nat>, ghost base: seq<string>)
      requires Valid() && i < |before| && SameShape(before, instruments)
      requires Faded(before, done, mills, b, base)
      modifies this
      ensures Valid() && SameShape(before, instruments)
      ensures Faded(before, done + MastersOf(before[i]), mills, b, base)
    {
      var inst := instruments[i];
      var ms := Select(inst, Role(Master));
      MastersOfShape(before[i], inst);
      ghost var m: seq<nat> := MastersOf(inst);
      ghost var cur: seq<nat> := done;
      assert done + m[..0] == done;
      var k := 0;
      while k < |ms|
        invariant 0 <= k <= |ms|
        invariant Valid() && SameShape(before, instruments)
        invariant cur == done + m[..k]
        invariant Faded(before, cur, mills, b, base)
      {
        var a: nat := inst.addr + inst.channels[ms[k]].chanid;
        MastersStep(done, inst, k, cur, a);
        MasterCovered(before, instruments, i, inst, ms, k);
        FadeAddress(i, a, mills, b, before, cur, base);
        cur := cur + [a];
        k := k + 1;
      }
      assert m[..k] == m;
    }

    /** The fade loops of `execute`: for each instrument of `sel`, for each of
        its master channels, `fadeChannel(inst.addr + chan->chanid, mills, b)`.
        None of them throws, because each address lies in its own instrument. */
    method FadeMasters(sel: seq<nat>, mills: nat, b: byte)
      requires Valid() && forall j :: 0 <= j < |sel| ==> sel[j] < |instruments|
      modifies this
      ensures Valid()
      ensures Fades(old(instruments), MasterAddresses(old(instruments), sel), mills, b).error.None?
      ensures instruments == Fades(old(instruments), MasterAddresses(old(instruments), sel), mills, b).insts
      ensures sent == old(sent) + Fades(old(instruments), MasterAddresses(old(instruments), sel), mills, b).lines
    {
      ghost var before := instruments;
      ghost var base := sent;
      var j := 0;
      while j < |sel|
        invariant 0 <= j <= |sel|
        invariant Valid() && SameShape(before, instruments)
        invariant Faded(before, MasterAddresses(before, sel[..j]), mills, b, base)
        invariant before == old(instruments) && base == old(sent)
      {
        assert sel[..j + 1][..j] == sel[..j];
        FadeInstrument(sel[j], mills, b, before, MasterAddresses(before, sel[..j]), base);
        j := j + 1;
      }
      assert sel[..j] == sel;
    }

    /** `dark` after `verify`: `setValues(master, 0)` and `writeOut()`. */
    method Dark()
      requires Valid() && LevelDefined(instruments, Master)
      modifies this
      ensures Valid()
      ensures var e := DarkEffect(old(instruments)); instruments == e.insts && sent == old(sent) + e.lines
    {
      var changed := SetValues(Master, 0);
      WriteOut();
    }

    /** `load` after `verify`: `loadScene(file)` and `writeOut()`. */
    method Load(doc: Node) returns (err: Option<string>)
      requires Valid() && (SceneValid(instruments, doc) ==> SceneDefined(instruments, doc))
      modifies this
      ensures Valid()
      ensures var e := LoadEffect(old(instruments), doc);
        instruments == e.insts && sent == old(sent) + e.lines && err == e.error
    {
      err := LoadScene(doc);
      if err.Some? {
        return;
      }
      WriteOut();
    }

    /** `loadBright` and `loadDark` after `verify`: `loadScene(file)`,
        `setValues(master, level)` and `writeOut()`. */
    method LoadLevel(doc: Node, level: nat) returns (err: Option<string>)
      requires Valid() && level <= 1
      requires SceneValid(instruments, doc) ==> SceneDefined(instruments, doc) && LevelDefined(instruments, Master)
      modifies this
      ensures Valid()
      ensures var e := LoadLevelEffect(old(instruments), doc, level);
        instruments == e.insts && sent == old(sent) + e.lines && err == e.error
    {
      err := LoadScene(doc);
      if err.Some? {
        return;
      }
      LevelShape(old(instruments), instruments, Master);
      var changed := SetValues(Master, level);
      WriteOut();
    }

    /** `loadAndFade` after `verify`: `loadScene(file)`, `setValues(master, 0)`,
        `writeOut()`, then a fade of every master channel to 0xFF. */
    method LoadAndFade(doc: Node, mills: nat) returns (err: Option<string>)
      requires Valid()
      requires SceneValid(instruments, doc) ==> SceneDefined(instruments, doc) && LevelDefined(instruments, Master)
      modifies this
      ensures Valid()
      ensures var e := LoadAndFadeEffect(old(instruments), doc, mills);
        instruments == e.insts && sent == old(sent) + e.lines && err == e.error
    {
      err := LoadScene(doc);
      if err.Some? {
        return;
      }
      LevelShape(old(instruments), instruments, Master);
      err := DarkFade(mills);
    }

    /** The tail of `loadAndFade`: `setValues(master, 0)`, `writeOut()`, then a
        fade of every master channel to 0xFF. */
    method DarkFade(mills: nat) returns (err: Option<string>)
      requires Valid() && LevelDefined(instruments, Master)
      modifies this
      ensures Valid()
      ensures var e := DarkFadeEffect(old(instruments), mills);
        instruments == e.insts && sent == old(sent) + e.lines && err == e.error
    {
      var changed := SetValues(Master, 0);
      ghost var l := instruments;
      WriteOut();
      ghost var mid := sent;
      err := Fade(AllIndices(instruments), mills, 255);
      ghost var f := FadeEffect(l, AllIndices(l), mills, 255);
      DarkFadeParts(old(instruments), mills, l, f);
      AppendAssoc(old(sent), [FrameOf(l)], f.lines);
    }

    /** `fadeTo` and `fadeInstTo` after `verify`: a fade of every master
        channel of the selected instruments. */
    method Fade(sel: seq<nat>, mills: nat, b: byte) returns (err: Option<string>)
      requires Valid() && forall j :: 0 <= j < |sel| ==> sel[j] < |instruments|
      modifies this
      ensures Valid()
      ensures var e := FadeEffect(old(instruments), sel, mills, b);
        instruments == e.insts && sent == old(sent) + e.lines && err == e.error
    {
      FadeMasters(sel, mills, b);
      err := None;
    }

    /** `DmxCtl::execute`: the instruction is checked by `verify` first and a
        rejected one changes nothing. */
    method Execute(verb: string, args: seq<Arg>, files: map<string, Node>) returns (err: Option<string>)
      requires Valid() && ExecuteDefined(instruments, verb, args, files)
      modifies this
      ensures Valid()
      ensures var e := Control.Execute(old(instruments), verb, args, files);
        instruments == e.insts && sent == old(sent) + e.lines && err == e.error
    {
      var e := Verify(instruments, verb, args, files);
      if e != "" {
        return Some("[DmxCtl::execute (" + verb + ")] " + e);
      }
      if verb == "loadAndFade" {
        err := LoadAndFade(files[args[0].text], DurationMs(args[1]));
      } else if verb == "fadeTo" {
        err := Fade(AllIndices(instruments), DurationMs(args[1]), FadeByte(args[0].number));
      } else if verb == "dark" {
        Dark();
        err := None;
      } else if verb == "load" {
        err := Load(files[args[0].text]);
      } else if verb == "loadBright" {
        err := LoadLevel(files[args[0].text], 1);
      } else if verb == "loadDark" {
        err := LoadLevel(files[args[0].text], 0);
      } else {
        err := Fade(WithPrefix(instruments, args[0].text), DurationMs(args[2]), FadeByte(args[1].number));
      }
    }
  }
}
