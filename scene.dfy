/** Scene files: their validation (`DmxCtl::checkScene`,
    dmxctl/interface.cpp:877-911) and their application (`DmxCtl::loadScene`,
    dmxctl/interface.cpp:913-943).  A scene document maps instrument-name
    prefixes to mappings from channel names or target roles to value strings. */
module Scene {
  import opened Common
  import opened Model
  import opened Descriptor
  import opened Values

  // ---------------------------------------------------------------------------
  // Validation

  /** Some instrument's name starts with `prefix`. */
  predicate NamesSome(insts: seq<Instrument>, prefix: string)
  {
    exists i :: 0 <= i < |insts| && StartsWith(insts[i].name, prefix)
  }

  /** Instrument `inst` has a channel matching the scene key `chname`. */
  predicate HasChannel(inst: Instrument, chname: string)
  {
    exists k :: 0 <= k < |inst.channels| && Matches(inst.channels[k], KeyOf(chname))
  }

  /** One scene entry is acceptable: its prefix names an instrument, its value is
      a mapping, and every instrument it names has every channel it mentions. */
  predicate EntryValid(insts: seq<Instrument>, e: (string, Node))
  {
    && NamesSome(insts, e.0)
    && e.1.Mapping?
    && forall m, i :: 0 <= m < |e.1.entries| && 0 <= i < |insts| && StartsWith(insts[i].name, e.0) ==>
         HasChannel(insts[i], e.1.entries[m].0)
  }

  /** What `checkScene` accepts. */
  predicate SceneValid(insts: seq<Instrument>, doc: Node)
  {
    doc.Mapping? && forall k :: 0 <= k < |doc.entries| ==> EntryValid(insts, doc.entries[k])
  }

  /** The first named instrument lacking a channel for `chname`, as a message. */
  function Lacking(insts: seq<Instrument>, named: seq<nat>, chname: string): (r: string)
    requires forall j :: 0 <= j < |named| ==> named[j] < |insts|
    ensures r == "" <==> forall j :: 0 <= j < |named| ==> HasChannel(insts[named[j]], chname)
  {
    if named == [] then ""
    else
      var inst := insts[named[0]];
      if Select(inst, KeyOf(chname)) == [] then
        assert !HasChannel(inst, chname);
        "`" + inst.name + "` does not have a channel `" + chname + "`"
      else
        assert Select(inst, KeyOf(chname))[0] in Select(inst, KeyOf(chname));
        Lacking(insts, named[1..], chname)
  }

  /** The first problem among the channel keys of one entry. */
  function ChannelsLacking(insts: seq<Instrument>, named: seq<nat>, ces: seq<(string, Node)>): (r: string)
    requires forall j :: 0 <= j < |named| ==> named[j] < |insts|
    ensures r == "" <==> forall m, j :: 0 <= m < |ces| && 0 <= j < |named| ==> HasChannel(insts[named[j]], ces[m].0)
  {
    if ces == [] then ""
    else
      var e := Lacking(insts, named, ces[0].0);
      if e != "" then e else ChannelsLacking(insts, named, ces[1..])
  }

  /** The problem with one scene entry, or "". */
  function EntryProblem(insts: seq<Instrument>, e: (string, Node)): (r: string)
    ensures r == "" <==> EntryValid(insts, e)
  {
    var named := WithPrefix(insts, e.0);
    if named == [] then "`" + e.0 + "` does not name a known instrument."
    else
      assert named[0] in named;
      if !e.1.Mapping? then "`" + e.0 + "` must be an object."
      else
        var r := ChannelsLacking(insts, named, e.1.entries);
        assert r == "" <==> forall m, i :: 0 <= m < |e.1.entries| && 0 <= i < |insts| && StartsWith(insts[i].name, e.0) ==>
          HasChannel(insts[i], e.1.entries[m].0) by {
          forall i | 0 <= i < |insts| && StartsWith(insts[i].name, e.0)
            ensures exists j :: 0 <= j < |named| && named[j] == i
          {
            assert i in named;
          }
        }
        r
  }

  function EntriesProblem(insts: seq<Instrument>, es: seq<(string, Node)>): (r: string)
    ensures r == "" <==> forall k :: 0 <= k < |es| ==> EntryValid(insts, es[k])
  {
    if es == [] then ""
    else
      var e := EntryProblem(insts, es[0]);
      if e != "" then e
      else
        assert forall k :: 1 <= k < |es| ==> es[k] == es[1..][k - 1];
        EntriesProblem(insts, es[1..])
  }

  /** `checkScene`: the empty string exactly for a valid scene, otherwise the
      first problem in document order. */
  function CheckScene(insts: seq<Instrument>, doc: Node): (r: string)
    ensures r == "" <==> SceneValid(insts, doc)
    ensures !doc.Mapping? ==> r == "File must be an object."
  {
    if !doc.Mapping? then "File must be an object." else EntriesProblem(insts, doc.entries)
  }

  // ---------------------------------------------------------------------------
  // Application

  /** Every instrument keeps its shape; only channel values differ. */
  predicate SameShape(a: seq<Instrument>, b: seq<Instrument>)
  {
    |a| == |b| && forall i :: 0 <= i < |a| ==>
      Skeleton(a[i]) == Skeleton(b[i]) && |a[i].channels| == |b[i].channels|
  }

  predicate Ascending(named: seq<nat>)
  {
    forall a, b :: 0 <= a < b < |named| ==> named[a] < named[b]
  }

  /** The arithmetic of `setValue(key, val)` is defined on every named instrument. */
  predicate SetDefined(insts: seq<Instrument>, named: seq<nat>, key: Key, val: string)
  {
    && (forall j :: 0 <= j < |named| ==> named[j] < |insts|)
    && forall j :: 0 <= j < |named| && Select(insts[named[j]], key) != [] ==>
         ValueDefined(insts[named[j]], Select(insts[named[j]], key), val)
  }

  lemma {:induction false} SetDefinedTransfer(a: seq<Instrument>, b: seq<Instrument>, named: seq<nat>, key: Key, val: string)
    requires SameShape(a, b) && SetDefined(a, named, key, val)
    ensures SetDefined(b, named, key, val)
  {
    forall j | 0 <= j < |named|
      ensures Select(b[named[j]], key) == Select(a[named[j]], key)
      ensures Select(a[named[j]], key) != [] ==>
        (ValueDefined(a[named[j]], Select(a[named[j]], key), val) <==> ValueDefined(b[named[j]], Select(b[named[j]], key), val))
    {
      SkeletonTransfer(a[named[j]], b[named[j]], key, val);
    }
  }

  /** The loop over the matched instruments: each gets `setValue(key, val)`. */
  function SetEach(insts: seq<Instrument>, named: seq<nat>, key: Key, val: string): (r: seq<Instrument>)
    requires Ascending(named) && SetDefined(insts, named, key, val)
    ensures SameShape(insts, r)
    ensures forall i :: 0 <= i < |insts| && i !in named ==> r[i] == insts[i]
    ensures forall i :: i in named ==> r[i] == Updated(insts[i], key, val)
  {
    if named == [] then insts
    else
      var n := |named| - 1;
      var i := named[n];
      PrefixSetDefined(insts, named, key, val);
      var front := SetEach(insts, named[..n], key, val);
      front[i := Updated(front[i], key, val)]
  }

  lemma PrefixSetDefined(insts: seq<Instrument>, named: seq<nat>, key: Key, val: string)
    requires Ascending(named) && SetDefined(insts, named, key, val) && named != []
    ensures Ascending(named[..|named| - 1]) && SetDefined(insts, named[..|named| - 1], key, val)
    ensures named[|named| - 1] !in named[..|named| - 1]
    ensures forall x :: x in named <==> x in named[..|named| - 1] || x == named[|named| - 1]
  {
    var n := |named| - 1;
    SetDefinedPrefix(insts, named, key, val, n);
    NotEarlier(named, n);
    assert named == named[..n] + [named[n]];
  }

  /** `SetEach` over the first `j` named instruments. */
  function SetEachUpTo(insts: seq<Instrument>, named: seq<nat>, key: Key, val: string, j: nat): (r: seq<Instrument>)
    requires Ascending(named) && SetDefined(insts, named, key, val) && j <= |named|
    ensures SameShape(insts, r)
  {
    SetDefinedPrefix(insts, named, key, val, j);
    SetEach(insts, named[..j], key, val)
  }

  /** One step of the loop over the named instruments: the next one, not yet
      visited because `named` is ascending, gets `setValue`. */
  lemma {:induction false} SetEachStep(insts: seq<Instrument>, named: seq<nat>, key: Key, val: string, j: nat)
    requires Ascending(named) && SetDefined(insts, named, key, val) && j < |named|
    ensures named[j] < |insts|
    ensures var i := named[j];
      Select(insts[i], key) != [] ==> ValueDefined(insts[i], Select(insts[i], key), val)
    ensures SetEachUpTo(insts, named, key, val, j)[named[j]] == insts[named[j]]
    ensures SetEachUpTo(insts, named, key, val, j + 1) ==
      SetEachUpTo(insts, named, key, val, j)[named[j] := Updated(insts[named[j]], key, val)]
  {
    SetDefinedPrefix(insts, named, key, val, j);
    SetDefinedPrefix(insts, named, key, val, j + 1);
    NotEarlier(named, j);
    var front := SetEach(insts, named[..j], key, val);
    assert front[named[j]] == insts[named[j]];
    assert named[..j + 1][..j] == named[..j];
  }

  /** What holds of the named instruments holds of a prefix of them. */
  lemma SetDefinedPrefix(insts: seq<Instrument>, named: seq<nat>, key: Key, val: string, j: nat)
    requires Ascending(named) && SetDefined(insts, named, key, val) && j <= |named|
    ensures Ascending(named[..j]) && SetDefined(insts, named[..j], key, val)
  {
    assert forall x :: 0 <= x < j ==> named[..j][x] == named[x];
  }

  /** An ascending sequence does not repeat an element. */
  lemma NotEarlier(named: seq<nat>, j: nat)
    requires Ascending(named) && j < |named|
    ensures named[j] !in named[..j]
  {
  }

  /** One application of a scene value: the conversion `as<string>` of the value
      throws on a non-scalar, as soon as some instrument is named. */
  datatype Outcome = Outcome(insts: seq<Instrument>, error: Option<string>)

  /** A scene value's conversion was attempted but it is not a scalar. */
  const BadConversion: string := "bad conversion"

  /** Every value of the channel keys is defined for every named instrument. */
  predicate ChannelsDefined(insts: seq<Instrument>, named: seq<nat>, ces: seq<(string, Node)>)
  {
    forall m :: 0 <= m < |ces| && ces[m].1.Scalar? ==> SetDefined(insts, named, KeyOf(ces[m].0), ces[m].1.text)
  }

  /** Every value of the channel keys is a scalar. */
  predicate AllScalar(ces: seq<(string, Node)>)
  {
    forall m :: 0 <= m < |ces| ==> ces[m].1.Scalar?
  }

  /** No channel key of `ces` selects channel `c`. */
  predicate Unmatched(c: Channel, ces: seq<(string, Node)>)
  {
    forall m :: 0 <= m < |ces| ==> !Matches(c, KeyOf(ces[m].0))
  }

  /** The loop over the channel keys of one scene entry. */
  function ApplyChannels(insts: seq<Instrument>, named: seq<nat>, ces: seq<(string, Node)>): (r: Outcome)
    requires Ascending(named) && (forall j :: 0 <= j < |named| ==> named[j] < |insts|)
    requires ChannelsDefined(insts, named, ces)
    ensures SameShape(insts, r.insts)
    ensures forall i, k :: (0 <= i < |insts| && 0 <= k < |insts[i].channels|
      && (i !in named || Unmatched(insts[i].channels[k], ces))) ==>
      r.insts[i].channels[k] == insts[i].channels[k]
    ensures AllScalar(ces) ==> r.error.None?
  {
    if ces == [] then Outcome(insts, None)
    else
      var n := |ces| - 1;
      ChannelsPrefix(insts, named, ces);
      var o := ApplyChannels(insts, named, ces[..n]);
      if o.error.Some? then o
      else if named != [] && !ces[n].1.Scalar? then Outcome(o.insts, Some(BadConversion))
      else if named == [] then o
      else
        var key := KeyOf(ces[n].0);
        SetDefinedTransfer(insts, o.insts, named, key, ces[n].1.text);
        var r := SetEach(o.insts, named, key, ces[n].1.text);
        ApplyChannelsFrame(insts, named, ces, o.insts, r);
        Outcome(r, None)
  }

  /** The earlier channel keys of an entry are defined and scalar when all are. */
  lemma ChannelsPrefix(insts: seq<Instrument>, named: seq<nat>, ces: seq<(string, Node)>)
    requires ces != [] && ChannelsDefined(insts, named, ces)
    ensures ChannelsDefined(insts, named, ces[..|ces| - 1])
    ensures AllScalar(ces) ==> AllScalar(ces[..|ces| - 1])
  {
    assert forall m :: 0 <= m < |ces| - 1 ==> ces[..|ces| - 1][m] == ces[m];
  }

  /** The inductive step of the frame condition of `ApplyChannels`. */
  lemma {:induction false} ApplyChannelsFrame(insts: seq<Instrument>, named: seq<nat>, ces: seq<(string, Node)>,
                                              mid: seq<Instrument>, r: seq<Instrument>)
    requires ces != [] && Ascending(named) && (forall j :: 0 <= j < |named| ==> named[j] < |insts|)
    requires SameShape(insts, mid) && SameShape(mid, r)
    requires forall i, k :: (0 <= i < |insts| && 0 <= k < |insts[i].channels|
      && (i !in named || Unmatched(insts[i].channels[k], ces[..|ces| - 1]))) ==>
      mid[i].channels[k] == insts[i].channels[k]
    requires forall i :: 0 <= i < |mid| && i !in named ==> r[i] == mid[i]
    requires forall i, k :: (i in named && 0 <= k < |mid[i].channels|
      && !Matches(mid[i].channels[k], KeyOf(ces[|ces| - 1].0))) ==> r[i].channels[k] == mid[i].channels[k]
    ensures SameShape(insts, r)
    ensures forall i, k :: (0 <= i < |insts| && 0 <= k < |insts[i].channels|
      && (i !in named || Unmatched(insts[i].channels[k], ces))) ==>
      r[i].channels[k] == insts[i].channels[k]
  {
    var n := |ces| - 1;
    forall i | 0 <= i < |insts| ensures Skeleton(insts[i]) == Skeleton(r[i]) && |insts[i].channels| == |r[i].channels| {
    }
    forall i, k | 0 <= i < |insts| && 0 <= k < |insts[i].channels|
      && (i !in named || Unmatched(insts[i].channels[k], ces))
      ensures r[i].channels[k] == insts[i].channels[k]
    {
      SkeletonFields(insts[i], mid[i]);
      if i in named {
        assert forall m :: 0 <= m < n ==> ces[..n][m] == ces[m];
        assert Unmatched(insts[i].channels[k], ces[..n]);
        assert !Matches(insts[i].channels[k], KeyOf(ces[n].0));
      }
    }
  }

  /** Every value of every entry is defined for the instruments it names. */
  predicate SceneDefined(insts: seq<Instrument>, doc: Node)
  {
    doc.Mapping? ==>
      forall k :: 0 <= k < |doc.entries| && doc.entries[k].1.Mapping? ==>
        ChannelsDefined(insts, WithPrefix(insts, doc.entries[k].0), doc.entries[k].1.entries)
  }

  /** The channel keys of a scene value; iterating a non-mapping yields none. */
  function ChannelEntries(v: Node): seq<(string, Node)>
  {
    if v.Mapping? then v.entries else []
  }

  /** The loop over the entries of the scene document. */
  function ApplyEntries(insts: seq<Instrument>, es: seq<(string, Node)>): (r: Outcome)
    requires SceneDefined(insts, Mapping(es))
    ensures SameShape(insts, r.insts)
    ensures forall i, k :: (0 <= i < |insts| && 0 <= k < |insts[i].channels|
      && !Mentioned(insts[i], insts[i].channels[k], es)) ==>
      r.insts[i].channels[k] == insts[i].channels[k]
  {
    if es == [] then Outcome(insts, None)
    else
      var n := |es| - 1;
      assert SceneDefined(insts, Mapping(es[..n])) by {
        assert forall k :: 0 <= k < n ==> es[..n][k] == es[k];
      }
      var o := ApplyEntries(insts, es[..n]);
      if o.error.Some? then o
      else
        var named := WithPrefix(o.insts, es[n].0);
        var ces := ChannelEntries(es[n].1);
        EntryDefined(insts, o.insts, es, n);
        var r := ApplyChannels(o.insts, named, ces);
        ApplyEntriesFrame(insts, es, o.insts, r.insts);
        Outcome(r.insts, r.error)
  }

  /** Entry `k` of a scene defined for `insts` is defined for every `mid` of the
      same shape, with the instruments that `mid` names by the entry's key. */
  lemma {:induction false} EntryDefined(insts: seq<Instrument>, mid: seq<Instrument>, es: seq<(string, Node)>, k: nat)
    requires SceneDefined(insts, Mapping(es)) && SameShape(insts, mid) && k < |es|
    ensures ChannelsDefined(mid, WithPrefix(mid, es[k].0), ChannelEntries(es[k].1))
  {
    var named := WithPrefix(mid, es[k].0);
    var ces := ChannelEntries(es[k].1);
    WithPrefixShape(insts, mid, es[k].0);
    forall m | 0 <= m < |ces| && ces[m].1.Scalar?
      ensures SetDefined(mid, named, KeyOf(ces[m].0), ces[m].1.text)
    {
      SetDefinedTransfer(insts, mid, named, KeyOf(ces[m].0), ces[m].1.text);
    }
  }

  /** A scene defined for its whole list of entries is defined for every prefix. */
  lemma {:induction false} SceneDefinedPrefix(insts: seq<Instrument>, es: seq<(string, Node)>, k: nat)
    requires SceneDefined(insts, Mapping(es)) && k <= |es|
    ensures SceneDefined(insts, Mapping(es[..k]))
  {
    assert forall j :: 0 <= j < k ==> es[..k][j] == es[j];
  }

  lemma {:induction false} ChannelsDefinedPrefix(insts: seq<Instrument>, named: seq<nat>, ces: seq<(string, Node)>, k: nat)
    requires ChannelsDefined(insts, named, ces) && k <= |ces|
    ensures ChannelsDefined(insts, named, ces[..k])
  {
    assert forall m :: 0 <= m < k ==> ces[..k][m] == ces[m];
  }

  /** A thrown channel key ends the loop over the keys. */
  lemma {:induction false} ChannelsErrorStep(insts: seq<Instrument>, named: seq<nat>, ces: seq<(string, Node)>)
    requires Ascending(named) && (forall j :: 0 <= j < |named| ==> named[j] < |insts|)
    requires ChannelsDefined(insts, named, ces) && ces != []
    requires ChannelsDefined(insts, named, ces[..|ces| - 1])
    requires ApplyChannels(insts, named, ces[..|ces| - 1]).error.Some?
    ensures ApplyChannels(insts, named, ces) == ApplyChannels(insts, named, ces[..|ces| - 1])
  {
  }

  /** Once a channel key has thrown, the later keys are never reached. */
  lemma {:induction false} ChannelsErrorPersists(insts: seq<Instrument>, named: seq<nat>, ces: seq<(string, Node)>, k: nat, o: Outcome)
    requires Ascending(named) && (forall j :: 0 <= j < |named| ==> named[j] < |insts|)
    requires ChannelsDefined(insts, named, ces) && k <= |ces|
    requires ChannelsDefined(insts, named, ces[..k])
    requires o.error.Some? && ApplyChannels(insts, named, ces[..k]) == o
    ensures ApplyChannels(insts, named, ces) == o
  {
    if k < |ces| {
      var front := ces[..|ces| - 1];
      assert front[..k] == ces[..k];
      ChannelsDefinedPrefix(insts, named, ces, |ces| - 1);
      ChannelsErrorPersists(insts, named, front, k, o);
      ChannelsErrorStep(insts, named, ces);
    } else {
      assert ces[..k] == ces;
    }
  }

  /** A thrown entry ends the loop over the entries. */
  lemma {:induction false} EntriesErrorStep(insts: seq<Instrument>, es: seq<(string, Node)>)
    requires SceneDefined(insts, Mapping(es)) && es != []
    requires SceneDefined(insts, Mapping(es[..|es| - 1]))
    requires ApplyEntries(insts, es[..|es| - 1]).error.Some?
    ensures ApplyEntries(insts, es) == ApplyEntries(insts, es[..|es| - 1])
  {
  }

  /** Once a scene entry has thrown, the later entries are never reached. */
  lemma {:induction false} EntriesErrorPersists(insts: seq<Instrument>, es: seq<(string, Node)>, k: nat, o: Outcome)
    requires SceneDefined(insts, Mapping(es)) && k <= |es|
    requires SceneDefined(insts, Mapping(es[..k]))
    requires o.error.Some? && ApplyEntries(insts, es[..k]) == o
    ensures ApplyEntries(insts, es) == o
  {
    if k < |es| {
      var front := es[..|es| - 1];
      assert front[..k] == es[..k];
      SceneDefinedPrefix(insts, es, |es| - 1);
      EntriesErrorPersists(insts, front, k, o);
      EntriesErrorStep(insts, es);
    } else {
      assert es[..k] == es;
    }
  }

  /** Channel `c` of instrument `inst` is mentioned by some entry naming it. */
  predicate Mentioned(inst: Instrument, c: Channel, es: seq<(string, Node)>)
  {
    exists k, m :: 0 <= k < |es| && StartsWith(inst.name, es[k].0)
      && 0 <= m < |ChannelEntries(es[k].1)| && Matches(c, KeyOf(ChannelEntries(es[k].1)[m].0))
  }

  lemma {:induction false} WithPrefixShape(a: seq<Instrument>, b: seq<Instrument>, prefix: string)
    requires SameShape(a, b)
    ensures WithPrefix(a, prefix) == WithPrefix(b, prefix)
  {
    if a != [] {
      var n := |a| - 1;
      SkeletonFields(a[n], b[n]);
      assert SameShape(a[..n], b[..n]);
      WithPrefixShape(a[..n], b[..n], prefix);
    }
  }

  lemma {:induction false} ApplyEntriesFrame(insts: seq<Instrument>, es: seq<(string, Node)>,
                                             mid: seq<Instrument>, r: seq<Instrument>)
    requires es != []
    requires SameShape(insts, mid) && SameShape(mid, r)
    requires forall i, k :: (0 <= i < |insts| && 0 <= k < |insts[i].channels|
      && !Mentioned(insts[i], insts[i].channels[k], es[..|es| - 1])) ==>
      mid[i].channels[k] == insts[i].channels[k]
    requires forall i, k :: (0 <= i < |mid| && 0 <= k < |mid[i].channels|
      && (i !in WithPrefix(mid, es[|es| - 1].0)
          || Unmatched(mid[i].channels[k], ChannelEntries(es[|es| - 1].1)))) ==>
      r[i].channels[k] == mid[i].channels[k]
    ensures SameShape(insts, r)
    ensures forall i, k :: (0 <= i < |insts| && 0 <= k < |insts[i].channels|
      && !Mentioned(insts[i], insts[i].channels[k], es)) ==>
      r[i].channels[k] == insts[i].channels[k]
  {
    var n := |es| - 1;
    forall i | 0 <= i < |insts| ensures Skeleton(insts[i]) == Skeleton(r[i]) && |insts[i].channels| == |r[i].channels| {
    }
    forall i, k | 0 <= i < |insts| && 0 <= k < |insts[i].channels| && !Mentioned(insts[i], insts[i].channels[k], es)
      ensures r[i].channels[k] == insts[i].channels[k]
    {
      SkeletonFields(insts[i], mid[i]);
      assert !Mentioned(insts[i], insts[i].channels[k], es[..n]) by {
        assert forall j :: 0 <= j < n ==> es[..n][j] == es[j];
      }
      var ces := ChannelEntries(es[n].1);
      if i in WithPrefix(mid, es[n].0) {
        SkeletonFields(mid[i], insts[i]);
        forall m | 0 <= m < |ces| ensures !Matches(mid[i].channels[k], KeyOf(ces[m].0)) {
          assert !Matches(insts[i].channels[k], KeyOf(ces[m].0));
        }
        assert Unmatched(mid[i].channels[k], ces);
      }
    }
  }

  /** `loadScene`: an invalid scene throws before anything changes; a valid one
      is applied entry by entry, channel key by channel key. */
  function LoadScene(insts: seq<Instrument>, doc: Node): (r: Outcome)
    requires SceneValid(insts, doc) ==> SceneDefined(insts, doc)
    ensures !SceneValid(insts, doc) ==>
      r == Outcome(insts, Some("[DmxCtl::loadScene] " + CheckScene(insts, doc)))
    ensures SameShape(insts, r.insts)
    ensures SceneValid(insts, doc) ==> forall i, k :: (0 <= i < |insts| && 0 <= k < |insts[i].channels|
      && !Mentioned(insts[i], insts[i].channels[k], doc.entries)) ==>
      r.insts[i].channels[k] == insts[i].channels[k]
  {
    var e := CheckScene(insts, doc);
    if e != "" then Outcome(insts, Some("[DmxCtl::loadScene] " + e))
    else ApplyEntries(insts, doc.entries)
  }
}
