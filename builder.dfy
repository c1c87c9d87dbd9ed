/** The constructor of `DmxCtl` as it runs: loops that append instruments,
    channels and discrete values one at a time and throw at the first bad
    record (dmxctl/interface.cpp:13-190).  Each method is proved to produce
    exactly what the corresponding definition of module `Descriptor` gives. */
module Builder {
  import opened Common
  import opened Model
  import opened Descriptor

  // ---------------------------------------------------------------------------
  // The folds stop at the first error

  /** Once a prefix of a `values` block fails, the whole block fails the same way. */
  lemma {:induction false} DiscreteErrorPersists(instName: string, chanName: string,
                                                 entries: seq<(string, Node)>, k: nat)
    requires k <= |entries|
    requires DiscreteOf(instName, chanName, entries[..k]).Err?
    ensures DiscreteOf(instName, chanName, entries) == DiscreteOf(instName, chanName, entries[..k])
    decreases |entries| - k
  {
    if k < |entries| {
      var n := |entries| - 1;
      assert entries[..n][..k] == entries[..k];
      DiscreteErrorPersists(instName, chanName, entries[..n], k);
      assert entries[..|entries|] == entries;
    } else {
      assert entries[..k] == entries;
    }
  }

  /** Once a prefix of the channel records fails, the whole instrument fails the
      same way. */
  lemma {:induction false} ChannelsErrorPersists(name: string, addr: nat, recs: seq<Node>, k: nat)
    requires k <= |recs|
    requires forall j :: 0 <= j < |recs| ==> NamesDefined(recs[j])
    requires ChannelsOf(name, addr, recs[..k]).Err?
    ensures ChannelsOf(name, addr, recs) == ChannelsOf(name, addr, recs[..k])
    decreases |recs| - k
  {
    if k < |recs| {
      var n := |recs| - 1;
      assert recs[..n][..k] == recs[..k];
      ChannelsErrorPersists(name, addr, recs[..n], k);
      ChannelsErrorStep(name, addr, recs);
    } else {
      assert recs[..k] == recs;
    }
  }

  lemma ChannelsErrorStep(name: string, addr: nat, recs: seq<Node>)
    requires recs != [] && forall j :: 0 <= j < |recs| ==> NamesDefined(recs[j])
    requires ChannelsOf(name, addr, recs[..|recs| - 1]).Err?
    ensures ChannelsOf(name, addr, recs) == ChannelsOf(name, addr, recs[..|recs| - 1])
  {
  }

  /** Once a prefix of the instrument records fails, the whole document fails
      the same way. */
  lemma {:induction false} InstrumentsErrorPersists(recs: seq<Node>, k: nat)
    requires k <= |recs|
    requires forall i :: 0 <= i < |recs| ==> InstrumentNamesDefined(recs[i])
    requires InstrumentsOf(recs[..k]).Err?
    ensures InstrumentsOf(recs) == InstrumentsOf(recs[..k])
    decreases |recs| - k
  {
    if k < |recs| {
      var n := |recs| - 1;
      assert recs[..n][..k] == recs[..k];
      InstrumentsErrorPersists(recs[..n], k);
    } else {
      assert recs[..k] == recs;
    }
  }
  /** One more record of the channel loop. */
  lemma ChannelsExtend(name: string, addr: nat, recs: seq<Node>, j: nat, inst: Instrument)
    requires j < |recs|
    requires forall k :: 0 <= k < |recs| ==> NamesDefined(recs[k])
    requires ChannelsOf(name, addr, recs[..j]) == Ok(inst)
    ensures ChannelsOf(name, addr, recs[..j + 1]) ==
      match ChannelOf(inst, recs[j])
      case Err(e) => Err(e)
      case Ok(c) => Ok(inst.(channels := inst.channels + [c]))
  {
    assert recs[..j + 1][..j] == recs[..j];
  }

  /** One more record of the instrument loop. */
  lemma InstrumentsExtend(recs: seq<Node>, i: nat, insts: seq<Instrument>)
    requires i < |recs|
    requires forall k :: 0 <= k < |recs| ==> InstrumentNamesDefined(recs[k])
    requires InstrumentsOf(recs[..i]) == Ok(insts)
    ensures InstrumentsOf(recs[..i + 1]) ==
      match InstrumentOf(recs[i])
      case Err(e) => Err(e)
      case Ok(inst) => Ok(insts + [inst])
  {
    assert recs[..i + 1][..i] == recs[..i];
  }


  // ---------------------------------------------------------------------------
  // The loops

  /** The discrete loop over the entries of a `values` block. */
  method ParseDiscrete(instName: string, chanName: string, entries: seq<(string, Node)>)
    returns (r: Result<seq<DiscreteValue>, BuildError>)
    ensures r == DiscreteOf(instName, chanName, entries)
  {
    var list: seq<DiscreteValue> := [];
    var k := 0;
    while k < |entries|
      invariant 0 <= k <= |entries|
      invariant DiscreteOf(instName, chanName, entries[..k]) == Ok(list)
    {
      var (key, node) := entries[k];
      assert entries[..k + 1][..k] == entries[..k];
      if key != "type" {
        var err: Option<BuildError> := None;
        if !node.Sequence? || |node.items| != 2 || !node.items[0].Scalar? || !node.items[1].Scalar? {
          err := Some(DiscreteNotPair(instName, chanName, key));
        } else {
          var lo, hi := ScalarNat(node.items[0]), ScalarNat(node.items[1]);
          if lo.Err? {
            err := Some(lo.error);
          } else if hi.Err? {
            err := Some(hi.error);
          } else {
            list := list + [DiscreteValue(lo.value, hi.value, key)];
          }
        }
        if err.Some? {
          DiscreteErrorPersists(instName, chanName, entries, k + 1);
          return Err(err.value);
        }
      }
      k := k + 1;
    }
    assert entries[..k] == entries;
    return Ok(list);
  }

  /** Reading a `values` block. */
  method ParseValues(instName: string, chanName: string, v: Node) returns (r: Result<ValueKind, BuildError>)
    ensures r == ValuesOf(instName, chanName, v)
  {
    if v.Scalar? {
      return Err(Library("bad subscript"));
    }
    if v.Sequence? {
      return Err(RangeNeedsScalars(chanName, instName));
    }
    var ty := Get(v.entries, "type");
    if ty.Some? && !ty.value.Scalar? {
      return Err(Library("bad conversion"));
    }
    if ty.None? || ty.value.text == "range" {
      var lo, hi := Get(v.entries, "min"), Get(v.entries, "max");
      if !(lo.Some? && hi.Some? && lo.value.Scalar? && hi.value.Scalar?) {
        return Err(RangeNeedsScalars(chanName, instName));
      }
      var a := ScalarInt(lo.value);
      if a.Err? {
        return Err(a.error);
      }
      var b := ScalarInt(hi.value);
      if b.Err? {
        return Err(b.error);
      }
      return Ok(Ranged(Range(a.value, b.value)));
    } else if ty.value.text == "discrete" {
      var list := ParseDiscrete(instName, chanName, v.entries);
      if list.Err? {
        return Err(list.error);
      }
      return Ok(Discrete(list.value));
    } else {
      return Err(UnknownValuesType(instName, chanName));
    }
  }

  /** One channel record appended to the instrument under construction; the
      duplicate-index search is the loop over the earlier occurrences. */
  method AddChannel(inst: Instrument, rec: Node) returns (r: Result<Channel, BuildError>)
    requires NamesDefined(rec)
    ensures r == ChannelOf(inst, rec)
  {
    if !rec.Mapping? {
      return if rec.Scalar? then Err(Library("bad subscript")) else Err(MissingKey("name"));
    }
    var n := Get(rec.entries, "name");
    if n.None? {
      return Err(MissingKey("name"));
    }
    if !n.value.Scalar? {
      return Err(WrongType("name", "Scalar"));
    }
    var split := Split(n.value.text);
    if split.Err? {
      return Err(split.error);
    }
    var dup := FindDuplicate(inst, split.value);
    if dup.Some? {
      return Err(dup.value);
    }
    r := Complete(inst, rec.entries, split.value);
  }

  /** The search of the earlier occurrences of the name for the same index. */
  method FindDuplicate(inst: Instrument, sp: SplitName) returns (r: Option<BuildError>)
    ensures r == Duplicate(inst, sp)
  {
    var occ := Select(inst, Named(sp.base));
    if sp.index.None? {
      return if |occ| > 0 then Some(DuplicateChannel(sp.base, inst.name)) else None;
    }
    var vi := sp.index.value;
    var k := 0;
    while k < |occ|
      invariant 0 <= k <= |occ|
      invariant forall m :: 0 <= m < k ==> inst.channels[occ[m]].valindex != vi
    {
      if inst.channels[occ[k]].valindex == vi {
        return Some(DuplicateIndex(sp.base, vi, inst.name));
      }
      k := k + 1;
    }
    return None;
  }

  /** Filling in the target and value kind of the new channel. */
  method Complete(inst: Instrument, entries: seq<(string, Node)>, sp: SplitName)
    returns (r: Result<Channel, BuildError>)
    ensures r == Completed(inst, entries, sp)
  {
    var vi := if sp.index.Some? then sp.index.value else 0;
    var target := InheritedTarget(inst, sp);
    var t := Get(entries, "target");
    if t.Some? {
      if !t.value.Scalar? {
        return Err(Library("bad conversion"));
      }
      if t.value.text !in TargetByName {
        return Err(UnknownTarget(t.value.text));
      }
      target := TargetByName[t.value.text];
    }
    var values := InheritedValues(inst, sp);
    var v := Get(entries, "values");
    if v.Some? {
      var parsed := ParseValues(inst.name, sp.base, v.value);
      if parsed.Err? {
        return Err(parsed.error);
      }
      values := parsed.value;
    }
    return Ok(Channel(|inst.channels|, sp.base, vi, target, values, 0));
  }

  /** The channel loop of one instrument. */
  method ReadChannels(name: string, addr: nat, recs: seq<Node>) returns (r: Result<Instrument, BuildError>)
    requires forall j :: 0 <= j < |recs| ==> NamesDefined(recs[j])
    ensures r == ChannelsOf(name, addr, recs)
  {
    var inst := Instrument(name, addr, []);
    var j := 0;
    while j < |recs|
      invariant 0 <= j <= |recs|
      invariant ChannelsOf(name, addr, recs[..j]) == Ok(inst)
    {
      var c := AddChannel(inst, recs[j]);
      ChannelsExtend(name, addr, recs, j, inst);
      if c.Err? {
        ChannelsErrorPersists(name, addr, recs, j + 1);
        return Err(c.error);
      }
      inst := inst.(channels := inst.channels + [c.value]);
      j := j + 1;
    }
    assert recs[..j] == recs;
    return Ok(inst);
  }

  /** One instrument record: the key checks, then the channel loop. */
  method BuildInstrument(rec: Node) returns (r: Result<Instrument, BuildError>)
    requires InstrumentNamesDefined(rec)
    ensures r == InstrumentOf(rec)
  {
    if !rec.Mapping? {
      return Err(InstrumentNotMap);
    }
    var es := rec.entries;
    var name, addr, chans := Get(es, "name"), Get(es, "addr"), Get(es, "channels");
    if name.None? { return Err(MissingKey("name")); }
    if !name.value.Scalar? { return Err(WrongType("name", "Scalar")); }
    if addr.None? { return Err(MissingKey("addr")); }
    if !addr.value.Scalar? { return Err(WrongType("addr", "Scalar")); }
    if chans.None? { return Err(MissingKey("channels")); }
    if !chans.value.Sequence? { return Err(WrongType("channels", "Sequence")); }
    var a := ScalarNat(addr.value);
    if a.Err? {
      return Err(a.error);
    }
    r := ReadChannels(name.value.text, a.value, chans.value.items);
  }

  /** The constructor: the argument and document checks, then the instrument loop. */
  method Build(args: seq<string>, doc: Node) returns (r: Result<seq<Instrument>, BuildError>)
    requires DocumentNamesDefined(doc)
    ensures r == Construct(args, doc)
  {
    if |args| != 2 {
      return Err(WrongArgumentCount);
    }
    if !doc.Sequence? {
      return Err(NotSequence);
    }
    var recs := doc.items;
    var insts: seq<Instrument> := [];
    var i := 0;
    while i < |recs|
      invariant 0 <= i <= |recs|
      invariant InstrumentsOf(recs[..i]) == Ok(insts)
    {
      var inst := BuildInstrument(recs[i]);
      InstrumentsExtend(recs, i, insts);
      if inst.Err? {
        InstrumentsErrorPersists(recs, i + 1);
        return Err(inst.error);
      }
      insts := insts + [inst.value];
      i := i + 1;
    }
    assert recs[..i] == recs;
    return Ok(insts);
  }
}
