/** Building the instrument list from the instrument descriptor document: the
    `DmxCtl` constructor, dmxctl/interface.cpp:13-190.  The document is given as
    an already-read tree; reading the file is the YAML library's business. */
module Descriptor {
  import opened Common
  import opened Model

  /** A document node: a scalar, a sequence or a mapping (entries in document
      order). */
  datatype Node = Scalar(text: string) | Sequence(items: seq<Node>) | Mapping(entries: seq<(string, Node)>)

  /** The value of the first entry called `key`. */
  function Get(entries: seq<(string, Node)>, key: string): (r: Option<Node>)
    ensures r.Some? ==> exists k :: (0 <= k < |entries| && entries[k] == (key, r.value)
      && forall j :: 0 <= j < k ==> entries[j].0 != key)
    ensures r.None? ==> forall k :: 0 <= k < |entries| ==> entries[k].0 != key
  {
    if entries == [] then None
    else if entries[0].0 == key then Some(entries[0].1)
    else Get(entries[1..], key)
  }

  /** Why construction failed; `Message` gives the text of the exception. */
  datatype BuildError =
    | WrongArgumentCount
    | NotSequence
    | InstrumentNotMap
    | MissingKey(key: string)
    | WrongType(key: string, kind: string)
    | DuplicateChannel(channel: string, instrument: string)
    | DuplicateIndex(channel: string, index: nat, instrument: string)
    | UnknownTarget(target: string)
    | RangeNeedsScalars(channel: string, instrument: string)
    | DiscreteNotPair(instrument: string, channel: string, entry: string)
    | UnknownValuesType(instrument: string, channel: string)
    | Library(what: string)

  function Message(e: BuildError): string
  {
    match e
    case WrongArgumentCount => "[DmxCtl::DmxCtl] Expects a device path and an instrument file path."
    case NotSequence => "[DmxCtl::DmxCtl] Instrument YAML file must be a sequence."
    case InstrumentNotMap => "[DmxCtl::DmxCtl] All instruments in instrument file must be objects."
    case MissingKey(k) => "[DmxCtl::DmxCtl] Missing `" + k + "` from instrument."
    case WrongType(k, t) => "[DmxCtl::DmxCtl] Instrument's " + k + " must be a " + t
    case DuplicateChannel(c, i) =>
      "[DmxCtl::DmxCtl] More than one occurance of channel \"" + c + "\" in instrument \"" + i + "\"."
    case DuplicateIndex(c, n, i) =>
      "[DmxCtl::DmxCtl] More than one occurance of " + c + " [" + Decimal(n) + "] in instrument " + i
    case UnknownTarget(t) => "[DmxCtl::DmxCtl] Unrecognized channel target \"" + t + "\"."
    case RangeNeedsScalars(c, i) =>
      "[DmxCtl::DmxCtl] Channel " + c + " of instrument " + i + " requires min and max scalars for its value range."
    case DiscreteNotPair(i, c, k) =>
      "[DmxCtl::DmxCtl] " + i + " > " + c + " > values > " + k + " must be a 2-list of scalars."
    case UnknownValuesType(i, c) => "[DmxCtl::DmxCtl] " + i + " > " + c + " > values > type Unknown type."
    case Library(w) => w
  }

  // ---------------------------------------------------------------------------
  // Scalar conversions

  /** `std::stoul` in base 10: leading blanks, an optional sign, at least one
      digit (else `invalid_argument`), no overflow (else `out_of_range`); a minus
      sign negates modulo 2^64, as `strtoul` does. */
  function Stoul(s: string): (r: Result<nat, BuildError>)
    ensures r.Ok? ==> r.value <= SizeMax
  {
    var t := SkipSpace(s);
    var neg := t != [] && t[0] == '-';
    var u := if t != [] && (t[0] == '-' || t[0] == '+') then t[1..] else t;
    var n := LeadingDigits(u);
    if n == 0 then Err(Library("stoul"))
    else
      var m := LeadingValue(u);
      if m > SizeMax then Err(Library("stoul"))
      else if neg && m > 0 then Ok(SizeMax + 1 - m)
      else Ok(m)
  }

  /** The YAML library's conversion of a scalar to `size_t`; decimal only. */
  function ScalarNat(n: Node): (r: Result<nat, BuildError>)
    ensures r.Ok? ==> n.Scalar? && r.value <= SizeMax
  {
    if n.Scalar? && n.text != [] && LeadingDigits(n.text) == |n.text|
       && DigitsValue(n.text) <= SizeMax
    then Ok(DigitsValue(n.text))
    else Err(Library("bad conversion"))
  }

  const IntMin: int := -0x8000_0000
  const IntMax: int := 0x7FFF_FFFF

  /** The YAML library's conversion of a scalar to `int`; decimal only. */
  function ScalarInt(n: Node): (r: Result<int, BuildError>)
    ensures r.Ok? ==> n.Scalar? && IntMin <= r.value <= IntMax
  {
    if !n.Scalar? || n.text == [] then Err(Library("bad conversion"))
    else
      var neg := n.text[0] == '-';
      var digits := if neg then n.text[1..] else n.text;
      if digits == [] || LeadingDigits(digits) != |digits| then Err(Library("bad conversion"))
      else
        var m: int := DigitsValue(digits);
        var v := if neg then 0 - m else m;
        if IntMin <= v <= IntMax then Ok(v) else Err(Library("bad conversion"))
  }

  // ---------------------------------------------------------------------------
  // Channel names of the form `base[idx]`

  function LastIndexOf(s: string, c: char): (r: int)
    ensures -1 <= r < |s|
    ensures r >= 0 ==> s[r] == c && forall k :: r < k < |s| ==> s[k] != c
    ensures r == -1 ==> forall k :: 0 <= k < |s| ==> s[k] != c
  {
    if s == [] then -1
    else if s[|s| - 1] == c then |s| - 1
    else LastIndexOf(s[..|s| - 1], c)
  }

  /** A channel name split into its base and, for `base[idx]`, its index. */
  datatype SplitName = SplitName(base: string, index: Option<nat>)

  /** The name splitting of the constructor: a name ending in `]` with a `[` is
      cut at the last `[` and the text in between read by `stoul`; an index equal
      to `npos` (2^64 - 1) leaves the channel a bare name. */
  function Split(name: string): (r: Result<SplitName, BuildError>)
    requires name != []
    ensures r.Ok? && r.value.index.None? ==> r.value.base == name || name[|name| - 1] == ']'
    ensures r.Ok? && r.value.index.Some? ==>
      && name[|name| - 1] == ']'
      && |r.value.base| < |name| - 1
      && name[|r.value.base|] == '['
      && name[..|r.value.base|] == r.value.base
      && r.value.index.value < SizeMax
    ensures name[|name| - 1] != ']' ==> r == Ok(SplitName(name, None))
  {
    var open := LastIndexOf(name, '[');
    if name[|name| - 1] == ']' && open >= 0 then
      match Stoul(name[open + 1..|name| - 1])
      case Err(e) => Err(e)
      case Ok(v) => Ok(SplitName(name[..open], if v == SizeMax then None else Some(v)))
    else Ok(SplitName(name, None))
  }

  /** Which names `Split` leaves bare: exactly those not ending in `]` or
      holding no `[`, and for them the result is the whole name with no index. */
  lemma {:induction false} SplitBare(name: string)
    requires name != []
    ensures name[|name| - 1] != ']' || (forall k :: 0 <= k < |name| ==> name[k] != '[') ==>
      Split(name) == Ok(SplitName(name, None))
    ensures Split(name).Ok? && |Split(name).value.base| >= |name| ==>
      name[|name| - 1] != ']' || forall k :: 0 <= k < |name| ==> name[k] != '['
  {
    var open := LastIndexOf(name, '[');
    if open >= 0 {
      assert name[open] == '[';
    }
  }

  /** Where `Split` cuts a name ending in `]`: at its last `[`. */
  lemma {:induction false} SplitCut(name: string, base: string, index: Option<nat>)
    requires name != [] && Split(name) == Ok(SplitName(base, index)) && |base| < |name|
    ensures name[|name| - 1] == ']' && |base| < |name| - 1
    ensures name[..|base|] == base && name[|base|] == '['
    ensures forall k :: |base| < k < |name| ==> name[k] != '['
  {
    var open := LastIndexOf(name, '[');
    assert name[|name| - 1] == ']' && open >= 0;
    assert |base| == open;
  }

  /** The index of a cut name is what `stoul` reads between the brackets;
      `npos` read there leaves no index. */
  lemma {:induction false} SplitIndex(name: string, base: string, index: Option<nat>)
    requires name != [] && Split(name) == Ok(SplitName(base, index)) && |base| < |name|
    ensures |base| == LastIndexOf(name, '[')
    ensures index.Some? ==> Stoul(name[LastIndexOf(name, '[') + 1..|name| - 1]) == Ok(index.value)
    ensures index.None? ==> Stoul(name[LastIndexOf(name, '[') + 1..|name| - 1]) == Ok(SizeMax)
  {
  }

  /** A name `Split` rejects ends in `]`, holds a `[`, and the error is the one
      `stoul` throws on the text after the last `[`. */
  lemma {:induction false} SplitError(name: string, e: BuildError)
    requires name != [] && Split(name) == Err(e)
    ensures name[|name| - 1] == ']' && LastIndexOf(name, '[') >= 0
    ensures Stoul(name[LastIndexOf(name, '[') + 1..|name| - 1]) == Err(e)
  {
  }

  /** The `name` scalar of a channel record, if it has one. */
  function RecordName(rec: Node): Option<string>
  {
    if rec.Mapping? then
      match Get(rec.entries, "name")
      case Some(Scalar(t)) => Some(t)
      case _ => None
    else None
  }

  /** `name.back()` on an empty name is undefined; the model excludes it. */
  predicate NamesDefined(rec: Node)
  {
    RecordName(rec) != Some("")
  }

  // ---------------------------------------------------------------------------
  // The `values` block

  /** The discrete values of a `type: discrete` block: every entry other than
      `type`, in document order, must be a 2-list of scalars `[min, max]`. */
  function DiscreteOf(instName: string, chanName: string, entries: seq<(string, Node)>)
    : (r: Result<seq<DiscreteValue>, BuildError>)
    ensures r.Ok? ==> forall k :: 0 <= k < |r.value| ==> r.value[k].name != "type"
    ensures r.Ok? ==> forall k :: 0 <= k < |entries| && entries[k].0 != "type" ==>
      entries[k].1.Sequence? && |entries[k].1.items| == 2
      && entries[k].1.items[0].Scalar? && entries[k].1.items[1].Scalar?
    ensures r.Ok? ==> forall v :: v in r.value ==> exists k :: 0 <= k < |entries| && entries[k].0 == v.name
  {
    if entries == [] then Ok([])
    else
      var n := |entries| - 1;
      var (key, node) := entries[n];
      match DiscreteOf(instName, chanName, entries[..n])
      case Err(e) => Err(e)
      case Ok(front) =>
        assert forall k :: 0 <= k < n ==> entries[..n][k] == entries[k];
        if key == "type" then Ok(front)
        else if !node.Sequence? || |node.items| != 2 || !node.items[0].Scalar? || !node.items[1].Scalar? then
          Err(DiscreteNotPair(instName, chanName, key))
        else
          match ScalarNat(node.items[0])
          case Err(e) => Err(e)
          case Ok(lo) =>
            match ScalarNat(node.items[1])
            case Err(e) => Err(e)
            case Ok(hi) => Ok(front + [DiscreteValue(lo, hi, key)])
  }

  /** The entries of a `values` block other than `type`, in document order. */
  function Others(entries: seq<(string, Node)>): (r: seq<(string, Node)>)
    ensures |r| <= |entries|
  {
    if entries == [] then []
    else
      var n := |entries| - 1;
      Others(entries[..n]) + if entries[n].0 == "type" then [] else [entries[n]]
  }

  /** An entry that reads as a discrete value: a 2-list of decimal scalars. */
  predicate Paired(e: (string, Node))
  {
    e.1.Sequence? && |e.1.items| == 2 && ScalarNat(e.1.items[0]).Ok? && ScalarNat(e.1.items[1]).Ok?
  }

  /** The discrete value an entry reads as: its key names it, its two scalars
      bound it. */
  predicate PairOf(e: (string, Node), v: DiscreteValue)
  {
    && e.1.Sequence? && |e.1.items| == 2
    && ScalarNat(e.1.items[0]) == Ok(v.min) && ScalarNat(e.1.items[1]) == Ok(v.max)
    && v.name == e.0
  }

  /** One entry more of a discrete block: an earlier error stands, a `type`
      entry is skipped, a pair is appended and anything else is rejected. */
  lemma {:induction false} DiscreteStep(instName: string, chanName: string, entries: seq<(string, Node)>)
    requires entries != []
    ensures var n := |entries| - 1; var front := DiscreteOf(instName, chanName, entries[..n]);
      var r := DiscreteOf(instName, chanName, entries);
      && (front.Err? || entries[n].0 == "type" ==> r == front)
      && (front.Ok? && entries[n].0 != "type" && !Paired(entries[n]) ==> r.Err?)
      && (front.Ok? && entries[n].0 != "type" && Paired(entries[n]) ==>
            (r.Ok? && r.value == front.value + [r.value[|r.value| - 1]]
             && PairOf(entries[n], r.value[|r.value| - 1])))
  {
  }

  /** The entries other than `type` of all but the last entry, and the last
      one when it is not `type`. */
  lemma {:induction false} OthersStep(entries: seq<(string, Node)>)
    requires entries != []
    ensures var n := |entries| - 1; var o := Others(entries[..n]);
      && (entries[n].0 == "type" ==> Others(entries) == o)
      && (entries[n].0 != "type" ==>
            (|Others(entries)| == |o| + 1 && Others(entries)[|o|] == entries[n]
             && forall k :: 0 <= k < |o| ==> Others(entries)[k] == o[k]))
  {
  }

  /** A discrete block is accepted exactly when every entry other than `type`
      reads as a pair. */
  lemma {:induction false} DiscreteAccepts(instName: string, chanName: string, entries: seq<(string, Node)>)
    ensures DiscreteOf(instName, chanName, entries).Ok? <==>
      forall k :: 0 <= k < |Others(entries)| ==> Paired(Others(entries)[k])
  {
    if entries != [] {
      var n := |entries| - 1;
      DiscreteAccepts(instName, chanName, entries[..n]);
      DiscreteStep(instName, chanName, entries);
      OthersStep(entries);
      var o := Others(entries[..n]);
      if entries[n].0 != "type" && DiscreteOf(instName, chanName, entries[..n]).Err? {
        var k :| 0 <= k < |o| && !Paired(o[k]);
        assert !Paired(Others(entries)[k]);
      }
    }
  }

  /** An accepted discrete block gives one value per entry other than `type`,
      in order, each named by its key and bounded by its two scalars. */
  lemma {:induction false} DiscreteValues(instName: string, chanName: string, entries: seq<(string, Node)>)
    ensures var r := DiscreteOf(instName, chanName, entries);
      r.Ok? ==> (|r.value| == |Others(entries)|
        && forall k :: 0 <= k < |r.value| ==> PairOf(Others(entries)[k], r.value[k]))
  {
    if entries != [] {
      var n := |entries| - 1;
      DiscreteValues(instName, chanName, entries[..n]);
      DiscreteStep(instName, chanName, entries);
      OthersStep(entries);
      var r := DiscreteOf(instName, chanName, entries);
      var front := DiscreteOf(instName, chanName, entries[..n]);
      if r.Ok? && entries[n].0 != "type" {
        assert forall k :: 0 <= k < |front.value| ==> r.value[k] == front.value[k];
      }
    }
  }

  /** The value kind a `values` block gives: absent `type` or `range` needs
      scalar `min` and `max`; `discrete` a list of named pairs; any other type is
      an error. */
  function ValuesOf(instName: string, chanName: string, v: Node): (r: Result<ValueKind, BuildError>)
    ensures r.Ok? ==> !r.value.Unit? && v.Mapping?
    ensures r.Ok? && r.value.Ranged? ==>
      && (Get(v.entries, "type").None? || Get(v.entries, "type") == Some(Scalar("range")))
      && Get(v.entries, "min").Some? && Get(v.entries, "max").Some?
      && ScalarInt(Get(v.entries, "min").value) == Ok(r.value.range.min)
      && ScalarInt(Get(v.entries, "max").value) == Ok(r.value.range.max)
    ensures r.Ok? && r.value.Discrete? ==>
      && Get(v.entries, "type") == Some(Scalar("discrete"))
      && DiscreteOf(instName, chanName, v.entries) == Ok(r.value.list)
    ensures (v.Mapping? && Get(v.entries, "type").Some? && Get(v.entries, "type").value.Scalar?
             && Get(v.entries, "type").value.text !in ["range", "discrete"]) ==>
      r == Err(UnknownValuesType(instName, chanName))
  {
    match v
    case Scalar(_) => Err(Library("bad subscript"))
    case Sequence(_) => Err(RangeNeedsScalars(chanName, instName))
    case Mapping(es) =>
      var ty := Get(es, "type");
      if ty.Some? && !ty.value.Scalar? then Err(Library("bad conversion"))
      else if ty.None? || ty.value.text == "range" then
        var lo, hi := Get(es, "min"), Get(es, "max");
        if lo.Some? && hi.Some? && lo.value.Scalar? && hi.value.Scalar? then
          match ScalarInt(lo.value)
          case Err(e) => Err(e)
          case Ok(a) =>
            match ScalarInt(hi.value)
            case Err(e) => Err(e)
            case Ok(b) => Ok(Ranged(Range(a, b)))
        else Err(RangeNeedsScalars(chanName, instName))
      else if ty.value.text == "discrete" then
        match DiscreteOf(instName, chanName, es)
        case Err(e) => Err(e)
        case Ok(list) => Ok(Discrete(list))
      else Err(UnknownValuesType(instName, chanName))
  }

  // ---------------------------------------------------------------------------
  // One channel record

  /** The first channel of the instrument called `name`, whose target and value
      kind a later indexed sibling inherits. */
  function FirstSibling(inst: Instrument, name: string): (r: Option<Channel>)
    ensures r.Some? ==> r.value in inst.channels && r.value.name == name
    ensures r.None? ==> forall k :: 0 <= k < |inst.channels| ==> inst.channels[k].name != name
  {
    var occ := Select(inst, Named(name));
    if occ == [] then None else Some(inst.channels[occ[0]])
  }

  /** The target and value kind a new channel starts from before its own
      `target` and `values` keys are read. */
  function InheritedTarget(inst: Instrument, sp: SplitName): TargetType
  {
    match FirstSibling(inst, sp.base)
    case Some(c) => if sp.index.Some? then c.target else Generic
    case None => Generic
  }

  function InheritedValues(inst: Instrument, sp: SplitName): ValueKind
  {
    match FirstSibling(inst, sp.base)
    case Some(c) => if sp.index.Some? then c.values else Unit
    case None => Unit
  }

  /** The channel that record `rec` appends to `inst`, or the error the
      constructor throws for it.  It gets the next `chanid`, and no existing
      channel has the same name and index; `ChannelOfMeaning` says the rest. */
  function ChannelOf(inst: Instrument, rec: Node): (r: Result<Channel, BuildError>)
    requires NamesDefined(rec)
    ensures r.Ok? ==> r.value.chanid == |inst.channels|
    ensures r.Ok? ==> forall k :: 0 <= k < |inst.channels| ==>
      inst.channels[k].name != r.value.name || inst.channels[k].valindex != r.value.valindex
  {
    if !rec.Mapping? then
      if rec.Scalar? then Err(Library("bad subscript")) else Err(MissingKey("name"))
    else
      match Get(rec.entries, "name")
      case None => Err(MissingKey("name"))
      case Some(n) =>
        if !n.Scalar? then Err(WrongType("name", "Scalar"))
        else
          match Split(n.text)
          case Err(e) => Err(e)
          case Ok(sp) =>
            match Duplicate(inst, sp)
            case Some(e) => Err(e)
            case None => Completed(inst, rec.entries, sp)
  }

  /** What a channel read from a record is: named by the record's `name`
      split into base and index, with a fresh name, its own recognised `target`
      or the inherited one, and its own `values` block or the inherited kind. */
  lemma ChannelOfMeaning(inst: Instrument, rec: Node)
    requires NamesDefined(rec) && ChannelOf(inst, rec).Ok?
    ensures var c := ChannelOf(inst, rec).value;
      && rec.Mapping? && RecordName(rec).Some? && Split(RecordName(rec).value).Ok?
      && var sp := Split(RecordName(rec).value).value;
      && c.value == 0 && c.name == sp.base
      && c.valindex == (if sp.index.Some? then sp.index.value else 0)
      // a bare name is unique
      && (sp.index.None? ==> forall k :: 0 <= k < |inst.channels| ==> inst.channels[k].name != c.name)
      // the target: its own key, which must be recognised, or the inherited one
      && (Get(rec.entries, "target").None? ==> c.target == InheritedTarget(inst, sp))
      && (Get(rec.entries, "target").Some? ==>
            var t := Get(rec.entries, "target").value;
            t.Scalar? && t.text in TargetByName && c.target == TargetByName[t.text])
      // the value kind: its own block, or the inherited one
      && (Get(rec.entries, "values").None? ==> c.values == InheritedValues(inst, sp))
      && (Get(rec.entries, "values").Some? ==>
            ValuesOf(inst.name, c.name, Get(rec.entries, "values").value) == Ok(c.values))
  {
  }

  /** The duplicate checks: a bare name may not occur yet, an indexed name not
      with the same index. */
  function Duplicate(inst: Instrument, sp: SplitName): (r: Option<BuildError>)
    ensures r.None? && sp.index.None? <==>
      sp.index.None? && forall k :: 0 <= k < |inst.channels| ==> inst.channels[k].name != sp.base
    ensures r.None? && sp.index.Some? <==>
      sp.index.Some? && forall k :: 0 <= k < |inst.channels| ==>
        inst.channels[k].name != sp.base || inst.channels[k].valindex != sp.index.value
  {
    var occ := Select(inst, Named(sp.base));
    if sp.index.None? then
      if occ != [] then
        assert occ[0] in occ;
        Some(DuplicateChannel(sp.base, inst.name))
      else None
    else if exists k :: k in occ && inst.channels[k].valindex == sp.index.value then
      Some(DuplicateIndex(sp.base, sp.index.value, inst.name))
    else None
  }

  /** The new channel once its name is accepted: inherited target and value
      kind, then its own `target` and `values` keys. */
  function Completed(inst: Instrument, entries: seq<(string, Node)>, sp: SplitName): Result<Channel, BuildError>
  {
    var vi := if sp.index.Some? then sp.index.value else 0;
    var target :- TargetField(entries, InheritedTarget(inst, sp));
    var values :- ValuesField(inst.name, sp.base, entries, InheritedValues(inst, sp));
    Ok(Channel(|inst.channels|, sp.base, vi, target, values, 0))
  }

  function TargetField(entries: seq<(string, Node)>, inherited: TargetType): (r: Result<TargetType, BuildError>)
    ensures Get(entries, "target").None? ==> r == Ok(inherited)
    ensures r.Ok? && Get(entries, "target").Some? ==>
      var t := Get(entries, "target").value;
      t.Scalar? && t.text in TargetByName && r.value == TargetByName[t.text]
  {
    match Get(entries, "target")
    case None => Ok(inherited)
    case Some(Scalar(t)) => if t in TargetByName then Ok(TargetByName[t]) else Err(UnknownTarget(t))
    case Some(_) => Err(Library("bad conversion"))
  }

  function ValuesField(instName: string, chanName: string, entries: seq<(string, Node)>, inherited: ValueKind)
    : (r: Result<ValueKind, BuildError>)
    ensures Get(entries, "values").None? ==> r == Ok(inherited)
    ensures Get(entries, "values").Some? ==> r == ValuesOf(instName, chanName, Get(entries, "values").value)
  {
    match Get(entries, "values")
    case None => Ok(inherited)
    case Some(v) => ValuesOf(instName, chanName, v)
  }

  // ---------------------------------------------------------------------------
  // Instruments and the whole document

  /** The instrument with only its first `m` channels. */
  function Prefix(inst: Instrument, m: nat): Instrument
    requires m <= |inst.channels|
  {
    inst.(channels := inst.channels[..m])
  }

  /** Appending a channel with the next `chanid` and a fresh `(name, valindex)`
      keeps an instrument well formed. */
  lemma {:induction false} AppendWellFormed(inst: Instrument, c: Channel)
    requires WellFormed(inst)
    requires c.chanid == |inst.channels|
    requires forall k :: 0 <= k < |inst.channels| ==>
      inst.channels[k].name != c.name || inst.channels[k].valindex != c.valindex
    ensures WellFormed(inst.(channels := inst.channels + [c]))
  {
    var cs := inst.channels + [c];
    assert forall k :: 0 <= k < |inst.channels| ==> cs[k] == inst.channels[k];
  }

  /** The channel loop: record `j` is read against the channels built from the
      records before it. */
  function ChannelsOf(name: string, addr: nat, recs: seq<Node>): (r: Result<Instrument, BuildError>)
    requires forall j :: 0 <= j < |recs| ==> NamesDefined(recs[j])
    ensures r.Ok? ==> r.value.name == name && r.value.addr == addr && |r.value.channels| == |recs|
    ensures r.Ok? ==> forall j :: 0 <= j < |recs| ==>
      ChannelOf(Prefix(r.value, j), recs[j]) == Ok(r.value.channels[j])
    ensures r.Ok? ==> WellFormed(r.value)
  {
    if recs == [] then Ok(Instrument(name, addr, []))
    else
      var n := |recs| - 1;
      match ChannelsOf(name, addr, recs[..n])
      case Err(e) => Err(e)
      case Ok(front) =>
        match ChannelOf(front, recs[n])
        case Err(e) => Err(e)
        case Ok(c) =>
          var inst := front.(channels := front.channels + [c]);
          AppendWellFormed(front, c);
          ChannelsStep(front, c, recs);
          Ok(inst)
  }

  /** The inductive step of `ChannelsOf`: the earlier channels keep the records
      they came from. */
  lemma {:induction false} ChannelsStep(front: Instrument, c: Channel, recs: seq<Node>)
    requires |recs| == |front.channels| + 1
    requires forall j :: 0 <= j < |recs| ==> NamesDefined(recs[j])
    requires forall j :: 0 <= j < |recs| - 1 ==>
      ChannelOf(Prefix(front, j), recs[..|recs| - 1][j]) == Ok(front.channels[j])
    requires ChannelOf(front, recs[|recs| - 1]) == Ok(c)
    ensures var inst := front.(channels := front.channels + [c]);
      forall j :: 0 <= j < |recs| ==> ChannelOf(Prefix(inst, j), recs[j]) == Ok(inst.channels[j])
  {
    var n := |recs| - 1;
    var inst := front.(channels := front.channels + [c]);
    forall j | 0 <= j < |recs|
      ensures ChannelOf(Prefix(inst, j), recs[j]) == Ok(inst.channels[j])
    {
      if j < n {
        StepEarlier(front, c, recs, j);
      } else {
        StepLast(front, c, recs);
      }
    }
  }

  lemma StepLast(front: Instrument, c: Channel, recs: seq<Node>)
    requires |recs| == |front.channels| + 1
    requires NamesDefined(recs[|recs| - 1])
    requires ChannelOf(front, recs[|recs| - 1]) == Ok(c)
    ensures var inst := front.(channels := front.channels + [c]);
      ChannelOf(Prefix(inst, |recs| - 1), recs[|recs| - 1]) == Ok(inst.channels[|recs| - 1])
  {
    PrefixOfAppend(front, c, |recs| - 1);
    assert front.channels[..|recs| - 1] == front.channels;
  }

  lemma StepEarlier(front: Instrument, c: Channel, recs: seq<Node>, j: nat)
    requires |recs| == |front.channels| + 1
    requires forall j :: 0 <= j < |recs| ==> NamesDefined(recs[j])
    requires j < |recs| - 1
    requires ChannelOf(Prefix(front, j), recs[..|recs| - 1][j]) == Ok(front.channels[j])
    ensures var inst := front.(channels := front.channels + [c]);
      ChannelOf(Prefix(inst, j), recs[j]) == Ok(inst.channels[j])
  {
    PrefixOfAppend(front, c, j);
    assert recs[..|recs| - 1][j] == recs[j];
  }

  lemma PrefixOfAppend(front: Instrument, c: Channel, j: nat)
    requires j <= |front.channels|
    ensures Prefix(front.(channels := front.channels + [c]), j) == Prefix(front, j)
  {
    assert (front.channels + [c])[..j] == front.channels[..j];
  }

  /** All channel names of an instrument record are defined. */
  predicate InstrumentNamesDefined(rec: Node)
  {
    rec.Mapping? ==>
      match Get(rec.entries, "channels")
      case Some(Sequence(cs)) => forall j :: 0 <= j < |cs| ==> NamesDefined(cs[j])
      case _ => true
  }

  /** One instrument record: `name`, `addr` and `channels` must be present with
      the right kinds, then the channels are read in order. */
  function InstrumentOf(rec: Node): (r: Result<Instrument, BuildError>)
    requires InstrumentNamesDefined(rec)
    ensures r.Ok? ==> rec.Mapping? && WellFormed(r.value)
    ensures r.Ok? ==>
      && Get(rec.entries, "name") == Some(Scalar(r.value.name))
      && Get(rec.entries, "addr").Some? && ScalarNat(Get(rec.entries, "addr").value) == Ok(r.value.addr)
      && Get(rec.entries, "channels").Some? && Get(rec.entries, "channels").value.Sequence?
      && ChannelsOf(r.value.name, r.value.addr, Get(rec.entries, "channels").value.items) == Ok(r.value)
  {
    if !rec.Mapping? then Err(InstrumentNotMap)
    else
      var es := rec.entries;
      if Get(es, "name").None? then Err(MissingKey("name"))
      else if !Get(es, "name").value.Scalar? then Err(WrongType("name", "Scalar"))
      else if Get(es, "addr").None? then Err(MissingKey("addr"))
      else if !Get(es, "addr").value.Scalar? then Err(WrongType("addr", "Scalar"))
      else if Get(es, "channels").None? then Err(MissingKey("channels"))
      else if !Get(es, "channels").value.Sequence? then Err(WrongType("channels", "Sequence"))
      else
        var addr :- ScalarNat(Get(es, "addr").value);
        ChannelsOf(Get(es, "name").value.text, addr, Get(es, "channels").value.items)
  }

  predicate DocumentNamesDefined(doc: Node)
  {
    doc.Sequence? ==> forall i :: 0 <= i < |doc.items| ==> InstrumentNamesDefined(doc.items[i])
  }

  /** The instrument loop. */
  function InstrumentsOf(recs: seq<Node>): (r: Result<seq<Instrument>, BuildError>)
    requires forall i :: 0 <= i < |recs| ==> InstrumentNamesDefined(recs[i])
    ensures r.Ok? ==> |r.value| == |recs|
    ensures r.Ok? ==> forall i :: 0 <= i < |recs| ==> InstrumentOf(recs[i]) == Ok(r.value[i])
  {
    if recs == [] then Ok([])
    else
      var n := |recs| - 1;
      match InstrumentsOf(recs[..n])
      case Err(e) => Err(e)
      case Ok(front) =>
        match InstrumentOf(recs[n])
        case Err(e) => Err(e)
        case Ok(inst) =>
          InstrumentsStep(front, inst, recs);
          Ok(front + [inst])
  }

  /** The inductive step of `InstrumentsOf`. */
  lemma {:induction false} InstrumentsStep(front: seq<Instrument>, inst: Instrument, recs: seq<Node>)
    requires |recs| == |front| + 1
    requires forall i :: 0 <= i < |recs| ==> InstrumentNamesDefined(recs[i])
    requires forall i :: 0 <= i < |front| ==> InstrumentOf(recs[..|front|][i]) == Ok(front[i])
    requires InstrumentOf(recs[|front|]) == Ok(inst)
    ensures forall i :: 0 <= i < |recs| ==> InstrumentOf(recs[i]) == Ok((front + [inst])[i])
  {
    forall i | 0 <= i < |recs|
      ensures InstrumentOf(recs[i]) == Ok((front + [inst])[i])
    {
      if i < |front| {
        assert recs[..|front|][i] == recs[i];
      }
    }
  }

  /** What the constructor builds from its arguments (device path, instrument
      file) and the instrument document, or the exception it throws. */
  function Construct(args: seq<string>, doc: Node): (r: Result<seq<Instrument>, BuildError>)
    requires DocumentNamesDefined(doc)
    ensures |args| != 2 ==> r == Err(WrongArgumentCount)
    ensures |args| == 2 && !doc.Sequence? ==> r == Err(NotSequence)
    ensures r.Ok? ==> doc.Sequence? && r == InstrumentsOf(doc.items)
  {
    if |args| != 2 then Err(WrongArgumentCount)
    else if !doc.Sequence? then Err(NotSequence)
    else InstrumentsOf(doc.items)
  }

  // ---------------------------------------------------------------------------
  // Properties of construction

  /** The channel record `j` of instrument record `i`, when the document has it. */
  function ChannelRecord(doc: Node, i: nat, j: nat): Option<Node>
  {
    if doc.Sequence? && i < |doc.items| && doc.items[i].Mapping? then
      match Get(doc.items[i].entries, "channels")
      case Some(Sequence(cs)) => if j < |cs| then Some(cs[j]) else None
      case _ => None
    else None
  }

  /** A built model has one instrument per record and every instrument is well
      formed: each `chanid` is its position, no `(name, valindex)` repeats. */
  lemma {:induction false} ConstructWellFormed(args: seq<string>, doc: Node)
    requires DocumentNamesDefined(doc)
    requires Construct(args, doc).Ok?
    ensures |Construct(args, doc).value| == |doc.items|
    ensures forall i :: 0 <= i < |doc.items| ==> WellFormed(Construct(args, doc).value[i])
  {
    var insts := Construct(args, doc).value;
    forall i | 0 <= i < |doc.items| ensures WellFormed(insts[i]) {
      assert InstrumentOf(doc.items[i]) == Ok(insts[i]);
    }
  }

  /** Record `j` of instrument `i` became channel `j` of instrument `i`, read
      against the channels before it. */
  lemma {:induction false} ConstructChannel(args: seq<string>, doc: Node, i: nat, j: nat)
    requires DocumentNamesDefined(doc)
    requires Construct(args, doc).Ok?
    requires ChannelRecord(doc, i, j).Some?
    ensures i < |Construct(args, doc).value|
    ensures var inst := Construct(args, doc).value[i];
      j < |inst.channels| && ChannelOf(Prefix(inst, j), ChannelRecord(doc, i, j).value) == Ok(inst.channels[j])
  {
    var insts := Construct(args, doc).value;
    assert InstrumentOf(doc.items[i]) == Ok(insts[i]);
  }

  /** A channel record whose `target` is not one of the recognised strings is
      rejected, and with it the whole construction. */
  lemma UnknownTargetChannel(inst: Instrument, rec: Node, t: string)
    requires NamesDefined(rec) && rec.Mapping? && Get(rec.entries, "target") == Some(Scalar(t))
    requires t !in TargetByName
    ensures ChannelOf(inst, rec).Err?
  {
    if ChannelOf(inst, rec).Ok? {
      ChannelOfMeaning(inst, rec);
    }
  }

  lemma {:induction false} UnknownTargetRejected(args: seq<string>, doc: Node, i: nat, j: nat, t: string)
    requires DocumentNamesDefined(doc)
    requires ChannelRecord(doc, i, j).Some? && ChannelRecord(doc, i, j).value.Mapping?
    requires Get(ChannelRecord(doc, i, j).value.entries, "target") == Some(Scalar(t))
    requires t !in TargetByName
    ensures Construct(args, doc).Err?
  {
    if Construct(args, doc).Ok? {
      ConstructChannel(args, doc, i, j);
      UnknownTargetChannel(Prefix(Construct(args, doc).value[i], j), ChannelRecord(doc, i, j).value, t);
    }
  }

  /** A `values` block whose `type` is neither `range` nor `discrete` is
      rejected, and with it the whole construction. */
  lemma UnknownValuesTypeChannel(inst: Instrument, rec: Node, ty: string)
    requires NamesDefined(rec) && rec.Mapping?
    requires var v := Get(rec.entries, "values");
      v.Some? && v.value.Mapping? && Get(v.value.entries, "type") == Some(Scalar(ty))
    requires ty != "range" && ty != "discrete"
    ensures ChannelOf(inst, rec).Err?
  {
    if ChannelOf(inst, rec).Ok? {
      ChannelOfMeaning(inst, rec);
    }
  }

  lemma {:induction false} UnknownValuesTypeRejected(args: seq<string>, doc: Node, i: nat, j: nat, ty: string)
    requires DocumentNamesDefined(doc)
    requires ChannelRecord(doc, i, j).Some? && ChannelRecord(doc, i, j).value.Mapping?
    requires var v := Get(ChannelRecord(doc, i, j).value.entries, "values");
      v.Some? && v.value.Mapping? && Get(v.value.entries, "type") == Some(Scalar(ty))
    requires ty != "range" && ty != "discrete"
    ensures Construct(args, doc).Err?
  {
    if Construct(args, doc).Ok? {
      ConstructChannel(args, doc, i, j);
      UnknownValuesTypeChannel(Prefix(Construct(args, doc).value[i], j), ChannelRecord(doc, i, j).value, ty);
    }
  }

  /** A discrete entry that is not a 2-list of scalars is rejected, and with it
      the whole construction. */
  lemma DiscreteShapeChannel(inst: Instrument, rec: Node, k: nat)
    requires NamesDefined(rec) && rec.Mapping?
    requires var v := Get(rec.entries, "values");
      && v.Some? && v.value.Mapping? && Get(v.value.entries, "type") == Some(Scalar("discrete"))
      && k < |v.value.entries| && v.value.entries[k].0 != "type"
      && var e := v.value.entries[k].1;
         !(e.Sequence? && |e.items| == 2 && e.items[0].Scalar? && e.items[1].Scalar?)
    ensures ChannelOf(inst, rec).Err?
  {
    if ChannelOf(inst, rec).Ok? {
      ChannelOfMeaning(inst, rec);
    }
  }

  lemma {:induction false} DiscreteShapeRejected(args: seq<string>, doc: Node, i: nat, j: nat, k: nat)
    requires DocumentNamesDefined(doc)
    requires ChannelRecord(doc, i, j).Some? && ChannelRecord(doc, i, j).value.Mapping?
    requires var v := Get(ChannelRecord(doc, i, j).value.entries, "values");
      && v.Some? && v.value.Mapping? && Get(v.value.entries, "type") == Some(Scalar("discrete"))
      && k < |v.value.entries| && v.value.entries[k].0 != "type"
      && var e := v.value.entries[k].1;
         !(e.Sequence? && |e.items| == 2 && e.items[0].Scalar? && e.items[1].Scalar?)
    ensures Construct(args, doc).Err?
  {
    if Construct(args, doc).Ok? {
      ConstructChannel(args, doc, i, j);
      DiscreteShapeChannel(Prefix(Construct(args, doc).value[i], j), ChannelRecord(doc, i, j).value, k);
    }
  }

  /** A range block without scalar `min` and `max` is rejected, and with it the
      whole construction. */
  lemma RangeBoundsChannel(inst: Instrument, rec: Node)
    requires NamesDefined(rec) && rec.Mapping?
    requires var v := Get(rec.entries, "values");
      && v.Some? && v.value.Mapping?
      && (Get(v.value.entries, "type").None? || Get(v.value.entries, "type") == Some(Scalar("range")))
      && !(Get(v.value.entries, "min").Some? && Get(v.value.entries, "min").value.Scalar?
           && Get(v.value.entries, "max").Some? && Get(v.value.entries, "max").value.Scalar?)
    ensures ChannelOf(inst, rec).Err?
  {
    if ChannelOf(inst, rec).Ok? {
      ChannelOfMeaning(inst, rec);
    }
  }

  lemma {:induction false} RangeBoundsRejected(args: seq<string>, doc: Node, i: nat, j: nat)
    requires DocumentNamesDefined(doc)
    requires ChannelRecord(doc, i, j).Some? && ChannelRecord(doc, i, j).value.Mapping?
    requires var v := Get(ChannelRecord(doc, i, j).value.entries, "values");
      && v.Some? && v.value.Mapping?
      && (Get(v.value.entries, "type").None? || Get(v.value.entries, "type") == Some(Scalar("range")))
      && !(Get(v.value.entries, "min").Some? && Get(v.value.entries, "min").value.Scalar?
           && Get(v.value.entries, "max").Some? && Get(v.value.entries, "max").value.Scalar?)
    ensures Construct(args, doc).Err?
  {
    if Construct(args, doc).Ok? {
      ConstructChannel(args, doc, i, j);
      RangeBoundsChannel(Prefix(Construct(args, doc).value[i], j), ChannelRecord(doc, i, j).value);
    }
  }
}
