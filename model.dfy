/** The instrument and channel data model of the DMX controller
    (dmxctl/interface.h) and its read-only lookups (dmxctl/interface.cpp). */
module Model {
  import opened Common

  /** The coarse role of a channel, used for bulk operations. */
  datatype TargetType = Master | Color | Pan | Tilt | Generic

  /** `Channel::targetMapping`: the strings accepted as a target; "dimmer" is an
      alias of "generic". */
  const TargetByName: map<string, TargetType> :=
    map["master" := Master, "color" := Color, "pan" := Pan, "tilt" := Tilt,
        "generic" := Generic, "dimmer" := Generic]

  /** A named sub-range of a discrete channel; `min`/`max` are unsigned. */
  datatype DiscreteValue = DiscreteValue(min: nat, max: nat, name: string)

  /** A numeric range; `min`/`max` are signed. */
  datatype Range = Range(min: int, max: int)

  /** The `values` variant: alternative 0 is `Unit`, alternative 1 the discrete
      list, alternative 2 the range. */
  datatype ValueKind = Unit | Discrete(list: seq<DiscreteValue>) | Ranged(range: Range)

  /** The index of the active alternative, as `std::variant::index()` reports it. */
  function VariantIndex(v: ValueKind): (i: nat)
    ensures i < 3
    ensures i == 1 <==> v.Discrete?
  {
    match v
    case Unit => 0
    case Discrete(_) => 1
    case Ranged(_) => 2
  }

  /** One addressable byte.  `chanid` is its own index in its instrument,
      `valindex` its byte position within the multi-byte value that all
      channels of the same `name` form (0 = least significant). */
  datatype Channel = Channel(
    chanid: nat,
    name: string,
    valindex: nat,
    target: TargetType,
    values: ValueKind,
    value: byte)

  /** A fixture occupying the universe addresses `addr`, `addr + 1`, ... */
  datatype Instrument = Instrument(name: string, addr: nat, channels: seq<Channel>)

  /** What the two `Instrument::operator[]` overloads select by: a channel name
      or a target role. */
  datatype Key = Named(name: string) | Role(target: TargetType)

  predicate Matches(c: Channel, key: Key)
  {
    match key
    case Named(n) => c.name == n
    case Role(t) => c.target == t
  }

  /** A scene or controller key names a role when `targetMapping` knows it,
      otherwise a channel. */
  function KeyOf(s: string): (k: Key)
    ensures k.Role? <==> s in TargetByName
    ensures k.Named? ==> k.name == s
  {
    if s in TargetByName then Role(TargetByName[s]) else Named(s)
  }

  /** Construction invariants of one instrument: every `chanid` is the channel's
      position and no two channels share both `name` and `valindex`. */
  predicate WellFormed(inst: Instrument)
  {
    && (forall k :: 0 <= k < |inst.channels| ==> inst.channels[k].chanid == k)
    && (forall a, b :: 0 <= a < b < |inst.channels| ==>
          inst.channels[a].name != inst.channels[b].name
          || inst.channels[a].valindex != inst.channels[b].valindex)
  }

  /** `Instrument::operator[]` by name or by target: the positions of exactly the
      matching channels, in channel order. */
  function Select(inst: Instrument, key: Key): (r: seq<nat>)
    ensures forall k :: k in r <==> 0 <= k < |inst.channels| && Matches(inst.channels[k], key)
    ensures forall a, b :: 0 <= a < b < |r| ==> r[a] < r[b]
    ensures forall a :: 0 <= a < |r| ==> r[a] < |inst.channels|
  {
    Positions(inst.channels, (c: Channel) => Matches(c, key))
  }

  /** `DmxCtl::operator[](prefix)`: the positions of exactly the instruments whose
      name starts with `prefix`, in order. */
  function WithPrefix(insts: seq<Instrument>, prefix: string): (r: seq<nat>)
    ensures forall i :: i in r <==> 0 <= i < |insts| && StartsWith(insts[i].name, prefix)
    ensures forall a, b :: 0 <= a < b < |r| ==> r[a] < r[b]
    ensures forall a :: 0 <= a < |r| ==> r[a] < |insts|
  {
    Positions(insts, (i: Instrument) => StartsWith(i.name, prefix))
  }

  /** Whether universe address `idx` lies within the instrument. */
  predicate Covers(inst: Instrument, idx: nat)
  {
    inst.addr <= idx < inst.addr + |inst.channels|
  }

  /** A reference to channel `chan` of instrument `inst`. */
  datatype ChannelRef = ChannelRef(inst: nat, chan: nat)

  const UndefinedChannel: string := "undefined channel"

  /** `DmxCtl::operator[](size_t)`: channel `idx - addr` of the first instrument
      that covers `idx`, or the "undefined channel" exception. */
  function At(insts: seq<Instrument>, idx: nat): (r: Result<ChannelRef, string>)
    ensures r.Ok? ==>
      && r.value.inst < |insts|
      && Covers(insts[r.value.inst], idx)
      && r.value.chan == idx - insts[r.value.inst].addr
      && r.value.chan < |insts[r.value.inst].channels|
      && forall j :: 0 <= j < r.value.inst ==> !Covers(insts[j], idx)
    ensures r.Err? <==> forall j :: 0 <= j < |insts| ==> !Covers(insts[j], idx)
    ensures r.Err? ==> r.error == UndefinedChannel
  {
    if insts == [] then Err(UndefinedChannel)
    else if Covers(insts[0], idx) then Ok(ChannelRef(0, idx - insts[0].addr))
    else
      match At(insts[1..], idx)
      case Ok(ref) => Ok(ChannelRef(ref.inst + 1, ref.chan))
      case Err(e) => Err(e)
  }

  /** Position of the first discrete value called `str`, or -1. */
  function FirstNamed(dvs: seq<DiscreteValue>, str: string): (r: int)
    ensures -1 <= r < |dvs|
    ensures r >= 0 ==> dvs[r].name == str && forall j :: 0 <= j < r ==> dvs[j].name != str
    ensures r == -1 <==> forall j :: 0 <= j < |dvs| ==> dvs[j].name != str
  {
    if dvs == [] then -1
    else if dvs[0].name == str then 0
    else
      var r := FirstNamed(dvs[1..], str);
      if r == -1 then -1 else r + 1
  }

  /** `Channel::rangeIndex`: the index of the discrete value named `str`, or -1
      when there is none or the channel is not discrete. */
  function RangeIndex(c: Channel, str: string): (r: int)
    ensures r >= 0 ==> c.values.Discrete? && r < |c.values.list| && c.values.list[r].name == str
    ensures r >= 0 ==> forall j :: 0 <= j < r ==> c.values.list[j].name != str
    ensures r == -1 <==> !c.values.Discrete? || forall j :: 0 <= j < |c.values.list| ==> c.values.list[j].name != str
  {
    if VariantIndex(c.values) == 1 then FirstNamed(c.values.list, str) else -1
  }

  /** `Channel::rangeMinimum`: the `min` of that discrete value, 0 without one. */
  function RangeMinimum(c: Channel, str: string): (r: nat)
    ensures RangeIndex(c, str) >= 0 ==> r == c.values.list[RangeIndex(c, str)].min
    ensures RangeIndex(c, str) == -1 ==> r == 0
  {
    if VariantIndex(c.values) == 1 then
      var i := FirstNamed(c.values.list, str);
      if i >= 0 then c.values.list[i].min else 0
    else 0
  }

  /** `targetMapping` recognises exactly six strings, and exactly "generic" and
      "dimmer" denote the generic role. */
  lemma TargetNames()
    ensures forall s :: s in TargetByName <==>
      s in ["master", "color", "pan", "tilt", "generic", "dimmer"]
    ensures forall s :: s in TargetByName && TargetByName[s] == Generic <==>
      s == "generic" || s == "dimmer"
  {
  }
}
