/** The instruction surface of the controller: `DmxCtl::verify`
    (dmxctl/interface.cpp:509-625), the bulk level setting `DmxCtl::setValues`
    (660-680) and the effect of `DmxCtl::execute` (381-506). */
module Control {
  import opened Common
  import opened Model
  import opened Descriptor
  import opened Values
  import opened Frame
  import opened Scene

  // ---------------------------------------------------------------------------
  // setValues

  /** `setValues` is defined when each instrument has at most three channels of
      the role (`1 << 8*n` on `int`) and their value indices are below 8. */
  predicate LevelDefined(insts: seq<Instrument>, targ: TargetType)
  {
    forall i :: 0 <= i < |insts| ==>
      var sel := Select(insts[i], Role(targ));
      |sel| <= 3 && forall j :: 0 <= j < |sel| ==> insts[i].channels[sel[j]].valindex < 8
  }

  /** (256^n - 1) * f for f = 0 or 1. */
  function Level(n: nat, level: nat): nat
  {
    if level == 1 then Pow(256, n) - 1 else 0
  }

  /** The instruments after `setValues(targ, level)`. */
  function Leveled(insts: seq<Instrument>, targ: TargetType, level: nat): (r: seq<Instrument>)
    ensures SameShape(insts, r)
  {
    var r := seq(|insts|, i requires 0 <= i < |insts| => LevelOne(insts[i], targ, level));
    assert forall i :: 0 <= i < |insts| ==> Skeleton(r[i]) == Skeleton(insts[i]) by {
      forall i | 0 <= i < |insts| ensures Skeleton(r[i]) == Skeleton(insts[i]) {
        AssignedSkeleton(insts[i], Select(insts[i], Role(targ)), Level(|Select(insts[i], Role(targ))|, level));
      }
    }
    r
  }

  /** The instruments part way through the loop of `setValues`: the first `i`
      have been set. */
  function LeveledUpTo(insts: seq<Instrument>, targ: TargetType, level: nat, i: nat): (r: seq<Instrument>)
    requires i <= |insts|
    ensures |r| == |insts|
  {
    Leveled(insts[..i], targ, level) + insts[i..]
  }

  /** One step of the loop of `setValues`, and its end. */
  lemma LeveledStep(insts: seq<Instrument>, targ: TargetType, level: nat, i: nat)
    requires i < |insts|
    ensures LeveledUpTo(insts, targ, level, i)[i] == insts[i]
    ensures LeveledUpTo(insts, targ, level, i + 1) ==
      LeveledUpTo(insts, targ, level, i)[i := LevelOne(insts[i], targ, level)]
  {
    var a := LeveledUpTo(insts, targ, level, i);
    var b := LeveledUpTo(insts, targ, level, i + 1);
    var c := a[i := LevelOne(insts[i], targ, level)];
    forall k | 0 <= k < |insts|
      ensures b[k] == c[k]
    {
      if k < i {
        assert insts[..i + 1][k] == insts[..i][k];
      }
    }
  }

  lemma LeveledAll(insts: seq<Instrument>, targ: TargetType, level: nat)
    ensures LeveledUpTo(insts, targ, level, 0) == insts
    ensures LeveledUpTo(insts, targ, level, |insts|) == Leveled(insts, targ, level)
  {
    assert insts[..|insts|] == insts;
  }

  /** One instrument after `setValues(targ, level)`. */
  function LevelOne(inst: Instrument, targ: TargetType, level: nat): Instrument
  {
    Assigned(inst, Select(inst, Role(targ)), Level(|Select(inst, Role(targ))|, level))
  }

  /** `setValues(targ, level)` gives every channel of the role its byte of
      (256^n - 1) * level, n the number of the role's channels, and leaves the others. */
  lemma LeveledMeaning(insts: seq<Instrument>, targ: TargetType, level: nat, i: nat, k: nat)
    requires i < |insts| && k < |insts[i].channels|
    ensures Leveled(insts, targ, level)[i].channels[k] == if insts[i].channels[k].target == targ
      then insts[i].channels[k].(value := ByteAt(Level(|Select(insts[i], Role(targ))|, level), insts[i].channels[k].valindex))
      else insts[i].channels[k]
  {
  }

  /** `setValues(targ, 0)` zeroes every channel of the role and leaves all others. */
  lemma {:induction false} DarkLevels(insts: seq<Instrument>, targ: TargetType)
    ensures forall i, k :: 0 <= i < |insts| && 0 <= k < |insts[i].channels| ==>
      Leveled(insts, targ, 0)[i].channels[k].value ==
        if insts[i].channels[k].target == targ then 0 else insts[i].channels[k].value
  {
    forall i, k | 0 <= i < |insts| && 0 <= k < |insts[i].channels|
      ensures Leveled(insts, targ, 0)[i].channels[k].value ==
        if insts[i].channels[k].target == targ then 0 else insts[i].channels[k].value
    {
      LeveledMeaning(insts, targ, 0, i, k);
      ZeroLevel(|Select(insts[i], Role(targ))|, insts[i].channels[k].valindex);
    }
  }

  lemma ZeroLevel(n: nat, vi: nat)
    ensures ByteAt(Level(n, 0), vi) == 0
  {
    assert 0 / Pow(256, vi) == 0;
  }

  lemma FullLevel(n: nat, vi: nat)
    ensures ByteAt(Level(n, 1), vi) == if vi < n then 255 else 0
  {
    FullBytes(n, vi);
  }

  /** `setValues(targ, 1)` sets a channel of the role to 255 when its value index
      is below the number of the instrument's channels of that role, else to 0. */
  lemma {:induction false} BrightLevels(insts: seq<Instrument>, targ: TargetType, i: nat, k: nat)
    requires i < |insts| && k < |insts[i].channels| && insts[i].channels[k].target == targ
    ensures Leveled(insts, targ, 1)[i].channels[k].value ==
      if insts[i].channels[k].valindex < |Select(insts[i], Role(targ))| then 255 else 0
  {
    LeveledMeaning(insts, targ, 1, i, k);
    FullLevel(|Select(insts[i], Role(targ))|, insts[i].channels[k].valindex);
  }

  // ---------------------------------------------------------------------------
  // Arguments and verify

  /** An instruction argument: its text, and the number and unit word that
      `strm >> num >> unit` extracts from it (0 when there is no number). */
  datatype Arg = Arg(text: string, number: real, unit: string)

  const Units: set<string> := {"s", "ms", "m"}

  predicate DurationOk(a: Arg)
  {
    a.number >= 0.0 && a.unit in Units
  }

  predicate FractionOk(a: Arg)
  {
    0.0 <= a.number <= 1.0
  }

  /** The scene file is a regular file and passes `checkScene`. */
  predicate SceneOk(insts: seq<Instrument>, files: map<string, Node>, path: string)
  {
    path in files && SceneValid(insts, files[path])
  }

  predicate IsLoad(verb: string)
  {
    verb == "load" || verb == "loadBright" || verb == "loadDark"
  }

  /** The instructions `verify` accepts, stated declaratively. */
  predicate Accepted(insts: seq<Instrument>, verb: string, args: seq<Arg>, files: map<string, Node>)
  {
    if verb == "loadAndFade" then |args| == 2 && SceneOk(insts, files, args[0].text) && DurationOk(args[1])
    else if verb == "fadeTo" then |args| == 2 && FractionOk(args[0]) && DurationOk(args[1])
    else if verb == "dark" then |args| == 0
    else if IsLoad(verb) then |args| == 1 && SceneOk(insts, files, args[0].text)
    else if verb == "fadeInstTo" then |args| == 3 && FractionOk(args[1]) && DurationOk(args[2])
    else false
  }

  function DurationProblem(a: Arg): (r: string)
    ensures r == "" <==> DurationOk(a)
  {
    if a.number < 0.0 then "Negative duration not supported."
    else if a.unit !in Units then "Unrecognized unit \"" + a.unit + "\"."
    else ""
  }

  function SceneProblem(insts: seq<Instrument>, doc: Node): (r: string)
    ensures r == "" <==> SceneValid(insts, doc)
  {
    var e := CheckScene(insts, doc);
    if e != "" then "Invalid scene file: " + e else ""
  }

  /** `verify`: the empty string exactly for an acceptable instruction, otherwise
      the first complaint. */
  function Verify(insts: seq<Instrument>, verb: string, args: seq<Arg>, files: map<string, Node>): (r: string)
    ensures r == "" <==> Accepted(insts, verb, args, files)
    ensures verb !in {"loadAndFade", "fadeTo", "dark", "load", "loadBright", "loadDark", "fadeInstTo"} ==>
      r == "Unknown command."
  {
    if verb == "loadAndFade" then
      if |args| != 2 then "Expects a file and a duration."
      else if args[0].text !in files then "Expected `" + args[0].text + "` to be a filepath."
      else
        var e := SceneProblem(insts, files[args[0].text]);
        if e != "" then e else DurationProblem(args[1])
    else if verb == "fadeTo" then
      if |args| != 2 then "Expects a fade value and a duration."
      else if !FractionOk(args[0]) then "Fade value must be in [0, 1]."
      else DurationProblem(args[1])
    else if verb == "dark" then
      if |args| != 0 then "Takes no arguments." else ""
    else if IsLoad(verb) then
      if |args| != 1 || args[0].text !in files then "Expects a scene file."
      else SceneProblem(insts, files[args[0].text])
    else if verb == "fadeInstTo" then
      if |args| != 3 then "Expects an instrument, fade value, and duration."
      else if !FractionOk(args[1]) then "Fade value must be in [0, 1]."
      else DurationProblem(args[2])
    else "Unknown command."
  }

  // ---------------------------------------------------------------------------
  // execute

  /** Conversion of a non-negative `float` to an integer count truncates. */
  function Truncate(x: real): (n: nat)
    requires x >= 0.0
    ensures n as real <= x < n as real + 1.0
  {
    x.Floor
  }

  /** The duration in milliseconds of an accepted duration argument. */
  function DurationMs(a: Arg): (ms: nat)
    requires DurationOk(a)
    ensures a.unit == "ms" ==> ms == Truncate(a.number)
    ensures a.unit == "s" ==> ms == 1000 * Truncate(a.number)
    ensures a.unit == "m" ==> ms == 60000 * Truncate(a.number)
  {
    var n := Truncate(a.number);
    if a.unit == "s" then n * 1000 else if a.unit == "ms" then n else n * 60000
  }

  /** `fade * 0xFF` converted to a byte. */
  function FadeByte(f: real): (b: byte)
    requires 0.0 <= f <= 1.0
    ensures b as real <= f * 255.0 < b as real + 1.0
  {
    var n := Truncate(f * 255.0);
    assert n as real <= 255.0;
    n
  }

  /** The addresses `inst.addr + chan->chanid` of the master channels of one
      instrument, in channel order. */
  function MastersOf(inst: Instrument): (r: seq<nat>)
    ensures |r| == |Select(inst, Role(Master))|
  {
    var ms := Select(inst, Role(Master));
    seq(|ms|, k requires 0 <= k < |ms| => inst.addr + inst.channels[ms[k]].chanid)
  }

  /** The master addresses of the instruments `sel`, in loop order. */
  function MasterAddresses(insts: seq<Instrument>, sel: seq<nat>): (r: seq<nat>)
    requires forall j :: 0 <= j < |sel| ==> sel[j] < |insts|
  {
    if sel == [] then []
    else MasterAddresses(insts, sel[..|sel| - 1]) + MastersOf(insts[sel[|sel| - 1]])
  }

  /** With every `chanid` equal to the channel's position, each master address
      lies inside its own instrument, so no fade of `execute` can throw. */
  lemma {:induction false} MastersCovered(insts: seq<Instrument>, sel: seq<nat>)
    requires forall j :: 0 <= j < |sel| ==> sel[j] < |insts|
    requires forall i :: 0 <= i < |insts| ==> WellFormed(insts[i])
    ensures AllCovered(insts, MasterAddresses(insts, sel))
  {
    if sel != [] {
      var n := |sel| - 1;
      MastersCovered(insts, sel[..n]);
      var front := MasterAddresses(insts, sel[..n]);
      var inst := insts[sel[n]];
      var ms := MastersOf(inst);
      forall k | 0 <= k < |front + ms|
        ensures Covered(insts, (front + ms)[k])
      {
        if k < |front| {
          assert (front + ms)[k] == front[k];
        } else {
          assert Covers(insts[sel[n]], (front + ms)[k]);
        }
      }
    }
  }

  /** The master addresses come one per master channel, in channel order. */
  lemma {:induction false} MastersStep(done: seq<nat>, inst: Instrument, k: nat, cur: seq<nat>, a: nat)
    requires k < |Select(inst, Role(Master))|
    requires cur == done + MastersOf(inst)[..k]
    requires a == inst.addr + inst.channels[Select(inst, Role(Master))[k]].chanid
    ensures cur + [a] == done + MastersOf(inst)[..k + 1]
  {
    var m := MastersOf(inst);
    assert m[..k + 1] == m[..k] + [m[k]];
  }

  /** The master addresses depend only on the shape of the instruments. */
  lemma {:induction false} MastersOfShape(a: Instrument, b: Instrument)
    requires Skeleton(a) == Skeleton(b)
    ensures MastersOf(a) == MastersOf(b)
  {
    SkeletonTransfer(a, b, Role(Master), "");
    SkeletonFields(a, b);
  }

  lemma {:induction false} MasterAddressesShape(a: seq<Instrument>, b: seq<Instrument>, sel: seq<nat>)
    requires SameShape(a, b) && forall j :: 0 <= j < |sel| ==> sel[j] < |a|
    ensures MasterAddresses(a, sel) == MasterAddresses(b, sel)
  {
    if sel != [] {
      MasterAddressesShape(a, b, sel[..|sel| - 1]);
      MastersOfShape(a[sel[|sel| - 1]], b[sel[|sel| - 1]]);
    }
  }

  function AllIndices(insts: seq<Instrument>): (r: seq<nat>)
    ensures |r| == |insts| && forall j :: 0 <= j < |r| ==> r[j] == j
  {
    seq(|insts|, j requires 0 <= j < |insts| => j)
  }

  /** What an instruction did: the instruments afterwards, the lines written to
      the engine, and the exception, if one was thrown. */
  datatype Effect = Effect(insts: seq<Instrument>, lines: seq<string>, error: Option<string>)

  /** The instruments after `(*this)[idx].value = b`, or the exception. */
  function SetAt(insts: seq<Instrument>, idx: nat, b: byte): (r: Result<seq<Instrument>, string>)
    ensures r.Err? <==> !Covered(insts, idx)
    ensures r.Err? ==> r.error == UndefinedChannel
    ensures r.Ok? ==> Layout(r.value) == Layout(insts)
  {
    match At(insts, idx)
    case Err(e) => Err(e)
    case Ok(ref) =>
      var inst := insts[ref.inst];
      Ok(insts[ref.inst := inst.(channels := inst.channels[ref.chan := inst.channels[ref.chan].(value := b)])])
  }

  /** Setting one value keeps the shape; the channel at `idx` now holds `b`. */
  lemma {:induction false} SetAtEffect(insts: seq<Instrument>, idx: nat, b: byte)
    requires SetAt(insts, idx, b).Ok?
    ensures SameShape(insts, SetAt(insts, idx, b).value)
    ensures var ref := At(insts, idx).value; SetAt(insts, idx, b).value[ref.inst].channels[ref.chan].value == b
  {
    var ref := At(insts, idx).value;
    var inst := insts[ref.inst];
    var inst' := inst.(channels := inst.channels[ref.chan := inst.channels[ref.chan].(value := b)]);
    assert Skeleton(inst') == Skeleton(inst) by {
      assert forall k :: 0 <= k < |inst.channels| ==> inst'.channels[k].(value := 0) == inst.channels[k].(value := 0);
    }
  }

  /** Where each instrument lies: its address and channel count. */
  function Layout(insts: seq<Instrument>): (r: seq<(nat, nat)>)
    ensures |r| == |insts| && forall j :: 0 <= j < |insts| ==> r[j] == (insts[j].addr, |insts[j].channels|)
  {
    seq(|insts|, j requires 0 <= j < |insts| => (insts[j].addr, |insts[j].channels|))
  }

  /** Some instrument covers the address. */
  predicate Covered(insts: seq<Instrument>, a: nat)
  {
    exists j :: 0 <= j < |insts| && Covers(insts[j], a)
  }

  /** Every address is covered by some instrument. */
  predicate AllCovered(insts: seq<Instrument>, addrs: seq<nat>)
  {
    forall k :: 0 <= k < |addrs| ==> Covered(insts, addrs[k])
  }

  function FadeLines(addrs: seq<nat>, mills: nat, b: byte): (r: seq<string>)
    ensures |r| == |addrs| && forall k :: 0 <= k < |addrs| ==> r[k] == FadeLine(addrs[k], mills, b)
  {
    seq(|addrs|, k requires 0 <= k < |addrs| => FadeLine(addrs[k], mills, b))
  }

  /** A series of `fadeChannel(a, mills, b)` calls; the first undefined address
      throws. */
  function Fades(insts: seq<Instrument>, addrs: seq<nat>, mills: nat, b: byte): (r: Effect)
    ensures Layout(r.insts) == Layout(insts)
  {
    if addrs == [] then Effect(insts, [], None)
    else FadeStep(Fades(insts, addrs[..|addrs| - 1], mills, b), addrs[|addrs| - 1], mills, b)
  }

  /** One `fadeChannel` call after the outcome `o` of the earlier ones. */
  function FadeStep(o: Effect, a: nat, mills: nat, b: byte): (r: Effect)
    ensures Layout(r.insts) == Layout(o.insts)
  {
    if o.error.Some? then o
    else
      match SetAt(o.insts, a, b)
      case Err(e) => Effect(o.insts, o.lines, Some(e))
      case Ok(next) => Effect(next, o.lines + [FadeLine(a, mills, b)], None)
  }

  /** A fade step succeeds exactly when the steps before it did and the address
      is covered; it then adds its line. */
  lemma FadeStepOutcome(insts: seq<Instrument>, o: Effect, a: nat, mills: nat, b: byte)
    requires Layout(o.insts) == Layout(insts)
    ensures var r := FadeStep(o, a, mills, b);
      && (r.error.None? <==> o.error.None? && Covered(insts, a))
      && (r.error.None? ==> r.lines == o.lines + [FadeLine(a, mills, b)])
      && (r.error.Some? ==> r.error == o.error || r.error == Some(UndefinedChannel))
  {
    CoverLayout(insts, o.insts, a);
  }

  /** One more fade after fades that all succeeded, at a covered address. */
  lemma {:induction false} FadesStep(insts: seq<Instrument>, addrs: seq<nat>, a: nat, mills: nat, b: byte)
    requires Fades(insts, addrs, mills, b).error.None?
    requires SetAt(Fades(insts, addrs, mills, b).insts, a, b).Ok?
    ensures Fades(insts, addrs + [a], mills, b) ==
      Effect(SetAt(Fades(insts, addrs, mills, b).insts, a, b).value, Fades(insts, addrs, mills, b).lines + [FadeLine(a, mills, b)], None)
  {
    assert (addrs + [a])[..|addrs|] == addrs;
  }

  /** The fades succeed exactly when every address is covered, and then one fade
      line per address is written, in order. */
  lemma {:induction false} FadesOutcome(insts: seq<Instrument>, addrs: seq<nat>, mills: nat, b: byte)
    ensures Fades(insts, addrs, mills, b).error.None? <==> AllCovered(insts, addrs)
    ensures Fades(insts, addrs, mills, b).error.None? ==> Fades(insts, addrs, mills, b).lines == FadeLines(addrs, mills, b)
    ensures Fades(insts, addrs, mills, b).error.Some? ==> Fades(insts, addrs, mills, b).error == Some(UndefinedChannel)
  {
    if addrs != [] {
      var n := |addrs| - 1;
      FadesOutcome(insts, addrs[..n], mills, b);
      FadesPrefix(insts, addrs);
      var o := Fades(insts, addrs[..n], mills, b);
      FadeStepOutcome(insts, o, addrs[n], mills, b);
      FadeLinesSnoc(addrs, mills, b);
    }
  }

  lemma FadeLinesSnoc(addrs: seq<nat>, mills: nat, b: byte)
    requires addrs != []
    ensures FadeLines(addrs, mills, b) ==
      FadeLines(addrs[..|addrs| - 1], mills, b) + [FadeLine(addrs[|addrs| - 1], mills, b)]
  {
  }

  /** Fading changes channel values only. */
  lemma {:induction false} FadesShape(insts: seq<Instrument>, addrs: seq<nat>, mills: nat, b: byte)
    ensures SameShape(insts, Fades(insts, addrs, mills, b).insts)
  {
    if addrs != [] {
      var n := |addrs| - 1;
      FadesShape(insts, addrs[..n], mills, b);
      var o := Fades(insts, addrs[..n], mills, b);
      if o.error.None? {
        match SetAt(o.insts, addrs[n], b)
        case Err(_) =>
        case Ok(next) =>
          SetAtEffect(o.insts, addrs[n], b);
          SameShapeTrans(insts, o.insts, next);
      }
    }
  }

  lemma CoverLayout(a: seq<Instrument>, b: seq<Instrument>, idx: nat)
    requires Layout(a) == Layout(b)
    ensures Covered(a, idx) <==> Covered(b, idx)
  {
    assert forall j :: 0 <= j < |a| ==> Layout(a)[j] == Layout(b)[j];
  }

  lemma {:induction false} FadesPrefix(insts: seq<Instrument>, addrs: seq<nat>)
    requires addrs != []
    ensures AllCovered(insts, addrs) <==>
      AllCovered(insts, addrs[..|addrs| - 1]) && Covered(insts, addrs[|addrs| - 1])
  {
    var n := |addrs| - 1;
    assert forall k :: 0 <= k < n ==> addrs[..n][k] == addrs[k];
  }

  lemma {:induction false} SameShapeTrans(a: seq<Instrument>, b: seq<Instrument>, c: seq<Instrument>)
    requires SameShape(a, b) && SameShape(b, c)
    ensures SameShape(a, c)
  {
  }

  /** What an accepted instruction of `execute` needs for its arithmetic: the
      verbs that call `setValues` on the masters are defined on them, and every
      value of the scene a loading verb applies is defined. A rejected
      instruction needs nothing. */
  predicate ExecuteDefined(insts: seq<Instrument>, verb: string, args: seq<Arg>, files: map<string, Node>)
  {
    Accepted(insts, verb, args, files) ==>
      && (verb in {"dark", "loadBright", "loadDark", "loadAndFade"} ==> LevelDefined(insts, Master))
      && (verb == "loadAndFade" || IsLoad(verb) ==> SceneDefined(insts, files[args[0].text]))
  }

  /** The line `writeOut` sends for the instruments. */
  function FrameOf(insts: seq<Instrument>): string
  {
    FrameLine(Slots(insts))
  }

  /** On a spread layout the line is also the one the as-written `getSlots`
      fills into the zeroed buffer of `writeOut`. */
  lemma FrameSpread(insts: seq<Instrument>)
    requires Spread(insts)
    ensures FrameOf(insts) == FrameLine(SlotsAsWritten(insts, Zeros))
  {
    SpreadAgrees(insts);
  }

  /** `dark`: every master channel at 0, then one frame. */
  function DarkEffect(insts: seq<Instrument>): (r: Effect)
    requires LevelDefined(insts, Master)
    ensures SameShape(insts, r.insts) && r.error.None? && r.lines == [FrameOf(r.insts)]
  {
    var l := Leveled(insts, Master, 0);
    Effect(l, [FrameOf(l)], None)
  }

  /** `fadeTo` and `fadeInstTo`: fades of every master channel of the selected
      instruments, in order. */
  function FadeEffect(insts: seq<Instrument>, sel: seq<nat>, mills: nat, b: byte): (r: Effect)
    requires forall j :: 0 <= j < |sel| ==> sel[j] < |insts|
    ensures SameShape(insts, r.insts)
  {
    FadesShape(insts, MasterAddresses(insts, sel), mills, b);
    Fades(insts, MasterAddresses(insts, sel), mills, b)
  }

  /** `load`: the scene, then one frame; nothing is sent when loading fails. */
  function LoadEffect(insts: seq<Instrument>, doc: Node): (r: Effect)
    requires SceneValid(insts, doc) ==> SceneDefined(insts, doc)
    ensures SameShape(insts, r.insts)
    ensures r.error.Some? ==> r.lines == [] && r.error == LoadScene(insts, doc).error
    ensures r.error.None? ==> r.lines == [FrameOf(r.insts)]
  {
    var o := LoadScene(insts, doc);
    if o.error.Some? then Effect(o.insts, [], o.error)
    else Effect(o.insts, [FrameOf(o.insts)], None)
  }

  /** `loadBright` and `loadDark`: the scene, the masters at full or at 0,
      then one frame. */
  function LoadLevelEffect(insts: seq<Instrument>, doc: Node, level: nat): (r: Effect)
    requires SceneValid(insts, doc) ==> SceneDefined(insts, doc) && LevelDefined(insts, Master)
    ensures SameShape(insts, r.insts)
    ensures r.error.Some? ==> r.lines == [] && r.error == LoadScene(insts, doc).error
    ensures r.error.None? ==> r.lines == [FrameOf(r.insts)]
  {
    var o := LoadScene(insts, doc);
    if o.error.Some? then Effect(o.insts, [], o.error)
    else
      LevelShape(insts, o.insts, Master);
      var l := Leveled(o.insts, Master, level);
      SameShapeTrans(insts, o.insts, l);
      Effect(l, [FrameOf(l)], None)
  }

  /** The masters at 0, one frame, then fades of every master channel to full. */
  function DarkFadeEffect(insts: seq<Instrument>, mills: nat): (r: Effect)
    requires LevelDefined(insts, Master)
    ensures SameShape(insts, r.insts)
    ensures |r.lines| >= 1 && r.lines[0] == FrameOf(Leveled(insts, Master, 0))
  {
    var l := Leveled(insts, Master, 0);
    var f := FadeEffect(l, AllIndices(l), mills, 255);
    SameShapeTrans(insts, l, f.insts);
    Effect(f.insts, [FrameOf(l)] + f.lines, f.error)
  }

  lemma DarkFadeParts(insts: seq<Instrument>, mills: nat, l: seq<Instrument>, f: Effect)
    requires LevelDefined(insts, Master)
    requires l == Leveled(insts, Master, 0) && f == FadeEffect(l, AllIndices(l), mills, 255)
    ensures DarkFadeEffect(insts, mills) == Effect(f.insts, [FrameOf(l)] + f.lines, f.error)
  {
  }

  /** `loadAndFade`: the scene, then the masters at 0, one frame and fades of
      every master channel to full. */
  function LoadAndFadeEffect(insts: seq<Instrument>, doc: Node, mills: nat): (r: Effect)
    requires SceneValid(insts, doc) ==> SceneDefined(insts, doc) && LevelDefined(insts, Master)
    ensures SameShape(insts, r.insts)
    ensures LoadScene(insts, doc).error.Some? ==> r.lines == [] && r.error == LoadScene(insts, doc).error
  {
    var o := LoadScene(insts, doc);
    if o.error.Some? then Effect(o.insts, [], o.error)
    else
      LevelShape(insts, o.insts, Master);
      var f := DarkFadeEffect(o.insts, mills);
      SameShapeTrans(insts, o.insts, f.insts);
      f
  }

  /** `execute`: a rejected instruction throws before anything happens;
      otherwise the verb's sequence of scene loading, level setting, frame
      writing and fading. */
  function Execute(insts: seq<Instrument>, verb: string, args: seq<Arg>, files: map<string, Node>): (r: Effect)
    requires ExecuteDefined(insts, verb, args, files)
    ensures !Accepted(insts, verb, args, files) ==>
      r == Effect(insts, [], Some("[DmxCtl::execute (" + verb + ")] " + Verify(insts, verb, args, files)))
    ensures SameShape(insts, r.insts)
  {
    var e := Verify(insts, verb, args, files);
    if e != "" then Effect(insts, [], Some("[DmxCtl::execute (" + verb + ")] " + e))
    else if verb == "dark" then DarkEffect(insts)
    else if verb == "fadeTo" then
      FadeEffect(insts, AllIndices(insts), DurationMs(args[1]), FadeByte(args[0].number))
    else if verb == "fadeInstTo" then
      FadeEffect(insts, WithPrefix(insts, args[0].text), DurationMs(args[2]), FadeByte(args[1].number))
    else if verb == "load" then LoadEffect(insts, files[args[0].text])
    else if verb == "loadBright" then LoadLevelEffect(insts, files[args[0].text], 1)
    else if verb == "loadDark" then LoadLevelEffect(insts, files[args[0].text], 0)
    else LoadAndFadeEffect(insts, files[args[0].text], DurationMs(args[1]))
  }

  lemma {:induction false} LevelShape(a: seq<Instrument>, b: seq<Instrument>, targ: TargetType)
    requires SameShape(a, b) && LevelDefined(a, targ)
    ensures LevelDefined(b, targ)
  {
    forall i | 0 <= i < |b|
      ensures var sel := Select(b[i], Role(targ));
        |sel| <= 3 && forall j :: 0 <= j < |sel| ==> b[i].channels[sel[j]].valindex < 8
    {
      SkeletonTransfer(a[i], b[i], Role(targ), "");
      SkeletonFields(a[i], b[i]);
    }
  }
}
