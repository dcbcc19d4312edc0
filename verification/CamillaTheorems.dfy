/** What a load does to the filters and to the chain of every channel, and why the last load wins. */
module CamillaTheorems {
  import opened Common
  import opened CamillaConfig

  // ---- filters ----

  /** A name some channel's gain filter goes by. */
  ghost predicate IsGainName(name: string, channels: seq<nat>) {
    exists i :: 0 <= i < |channels| && name == GainName(channels[i])
  }

  lemma {:induction false} WithGainsAt(fs: FilterMap, channels: seq<nat>, gain: real, mute: bool, name: string)
    ensures Get(WithGains(fs, channels, gain, mute), name) ==
            if IsGainName(name, channels) then Some(GainFilter(Get(fs, name), gain, mute)) else Get(fs, name)
  {
    if channels != [] {
      var n := |channels| - 1;
      WithGainsAt(fs, channels[..n], gain, mute, name);
      if IsGainName(name, channels[..n]) {
        var i :| 0 <= i < n && name == GainName(channels[..n][i]);
        assert name == GainName(channels[i]);
        GainFilterTwice(Get(fs, name), gain, mute);
      } else {
        assert forall i :: 0 <= i < n ==> channels[..n][i] == channels[i];
      }
    }
  }

  lemma {:induction false} GainFilterTwice(was: Option<Filter>, gain: real, mute: bool)
    ensures GainFilter(Some(GainFilter(was, gain, mute)), gain, mute) == GainFilter(was, gain, mute)
  {
    var p := GainFilter(was, gain, mute).parameters;
    assert p["gain" := Num(gain)]["mute" := Flag(mute)] == p;
  }

  /** What one more BEQ filter makes of a name that the filters before it treated as they should. */
  ghost predicate BeqsAt(fs: FilterMap, r: FilterMap, peqs: seq<Peq>, description: string, name: string) {
    && (forall i :: 0 <= i < |peqs| && name == BeqName(i) ==>
        Get(r, name) == Some(BeqFilter(Get(fs, name), peqs[i], description)))
    && ((forall i :: 0 <= i < |peqs| ==> name != BeqName(i)) ==> Get(r, name) == Get(fs, name))
  }

  lemma {:induction false} OneMoreBeq(
      fs: FilterMap, front: FilterMap, peqs: seq<Peq>, description: string, name: string, n: nat)
    requires |peqs| == n + 1 && BeqsAt(fs, front, peqs[..n], description, name)
    ensures BeqsAt(fs, front[BeqName(n) := BeqFilter(Get(front, BeqName(n)), peqs[n], description)], peqs, description,
        name)
  {
    if name == BeqName(n) {
      forall i | 0 <= i < n
        ensures name != BeqName(i)
      {
        NamesDiffer(0, 0, i, n);
      }
    }
  }

  /** The BEQ filter of this name gets the parameters of its peq, keeping its type; every other filter is untouched. */
  lemma {:induction false} WithBeqsAt(fs: FilterMap, peqs: seq<Peq>, description: string, name: string)
    ensures BeqsAt(fs, WithBeqs(fs, peqs, description), peqs, description, name)
  {
    if peqs != [] {
      var n := |peqs| - 1;
      WithBeqsAt(fs, peqs[..n], description, name);
      OneMoreBeq(fs, WithBeqs(fs, peqs[..n], description), peqs, description, name, n);
    }
  }

  /** Every filter after a load: the entry's, the gains', or the one there before. */
  lemma {:induction false} EntryFilterAt(
      e: Option<Entry>, base: Config, channels: seq<nat>, gain: real, mute: bool, name: string)
    ensures
      var r, was := EntryConfig(e, base, channels, gain, mute).FilterMap(), Get(base.FilterMap(), name);
      && (forall i :: 0 <= i < |Padded(e)| && name == BeqName(i) ==>
            Get(r, name) == Some(BeqFilter(was, Padded(e)[i], Description(e))))
      && (IsGainName(name, channels) ==> Get(r, name) == Some(GainFilter(was, gain, mute)))
      && ((forall i :: 0 <= i < |Padded(e)| ==> name != BeqName(i)) && !IsGainName(name, channels) ==>
          Get(r, name) == was)
  {
    var fs := WithGains(base.FilterMap(), channels, gain, mute);
    WithGainsAt(base.FilterMap(), channels, gain, mute, name);
    WithBeqsAt(fs, Padded(e), Description(e), name);
    if IsGainName(name, channels) {
      var c :| 0 <= c < |channels| && name == GainName(channels[c]);
      forall i | 0 <= i < |Padded(e)|
        ensures name != BeqName(i)
      {
        NamesDiffer(channels[c], 0, i, 0);
      }
    }
  }

  // ---- chains ----

  /** The filters applied to a channel, in order, along the pipeline. */
  function Chain(pipeline: seq<Stage>, c: int): seq<string> {
    if pipeline == [] then [] else
    var n := |pipeline| - 1;
    Chain(pipeline[..n], c) + ChainOf(pipeline[n], c)
  }

  lemma {:induction false} ChainAppend(a: seq<Stage>, b: seq<Stage>, c: int)
    ensures Chain(a + b, c) == Chain(a, c) + Chain(b, c)
  {
    if b == [] {
      assert a + b == a;
    } else {
      var n := |b| - 1;
      assert (a + b)[..|a| + n] == a + b[..n];
      ChainAppend(a, b[..n], c);
      Regroup(Chain(a, c), Chain(b[..n], c), ChainOf(b[n], c));
    }
  }

  /** A channel carries a filter exactly when its chain lists it. */
  lemma {:induction false} CarriesIffInChain(pipeline: seq<Stage>, c: int, name: string)
    ensures Carries(pipeline, c, name) <==> name in Chain(pipeline, c)
  {
    if pipeline != [] {
      var n := |pipeline| - 1;
      CarriesIffInChain(pipeline[..n], c, name);
      CarriesNext(pipeline, n);
      assert pipeline[..n + 1] == pipeline;
    }
  }

  lemma {:induction false} KeysAreDistinct(channels: seq<nat>)
    ensures Distinct(Keys(channels))
    ensures forall c :: c in Keys(channels) <==> c in channels
  {
    if channels != [] {
      KeysAreDistinct(channels[..|channels| - 1]);
      assert channels == channels[..|channels| - 1] + [channels[|channels| - 1]];
    }
  }

  function MissingGain(pipeline: seq<Stage>, keys: seq<nat>, c: nat): seq<string> {
    if c in keys && !Carries(pipeline, c, GainName(c)) then [GainName(c)] else []
  }

  function ChainOf(s: Stage, c: int): seq<string> {
    if s.Filters? && c in s.channels then s.names else []
  }

  lemma {:induction false} ChainStep(front: seq<Stage>, last: Stage, c: int)
    ensures Chain(front + [last], c) == Chain(front, c) + ChainOf(last, c)
  {
    assert (front + [last])[..|front|] == front;
  }

  lemma {:induction false} GainStageChain(front: seq<Stage>, base: seq<Stage>, k: nat, c: nat)
    ensures Chain(front + GainStage(base, k), c) ==
            Chain(front, c) + if c == k && !Carries(base, k, GainName(k)) then [GainName(k)] else []
  {
    EmptyLast(Chain(front, c));
    if Carries(base, k, GainName(k)) {
      EmptyLast(front);
    } else {
      ChainStep(front, Filters([k], [GainName(k)], map[]), c);
    }
  }

  lemma {:induction false} GainStagesChain(base: seq<Stage>, keys: seq<nat>, c: nat)
    requires Distinct(keys)
    ensures Chain(GainStages(base, keys), c) == MissingGain(base, keys, c)
  {
    if keys != [] {
      var n := |keys| - 1;
      GainStagesChain(base, keys[..n], c);
      GainStageChain(GainStages(base, keys[..n]), base, keys[n], c);
      EmptyLast(MissingGain(base, keys[..n], c));
      EmptyFirst(MissingGain(base, keys, c));
      assert c in keys <==> c in keys[..n] || c == keys[n];
      assert c == keys[n] ==> c !in keys[..n];
    }
  }

  // ---- grouping ----

  ghost predicate DistinctNames(groups: seq<Group>) {
    forall i, j :: 0 <= i < j < |groups| ==> groups[i].names != groups[j].names
  }

  /** Every group lists, once each, channels whose key is its names. */
  ghost predicate Lists(groups: seq<Group>, keys: seq<nat>, key: nat -> seq<string>) {
    forall i :: 0 <= i < |groups| ==> ListsWell(groups[i], keys, key)
  }

  ghost predicate ListsWell(g: Group, keys: seq<nat>, key: nat -> seq<string>) {
    && g.channels != [] && Distinct(g.channels)
    && (forall c :: c in g.channels ==> c in keys && g.names == key(c))
  }

  ghost predicate InSomeGroup(groups: seq<Group>, c: nat) {
    exists i :: 0 <= i < |groups| && c in groups[i].channels
  }

  /** The groups partition the channels by key. */
  ghost predicate GroupsBy(groups: seq<Group>, keys: seq<nat>, key: nat -> seq<string>) {
    DistinctNames(groups) && Lists(groups, keys, key) && (forall c :: c in keys ==> InSomeGroup(groups, c))
  }

  /** Where a channel goes: at the end of the group of its names, or in a new last group. */
  function Place(groups: seq<Group>, names: seq<string>): (k: nat)
    ensures k <= |groups|
    ensures k < |groups| ==> groups[k].names == names
    ensures forall i :: 0 <= i < k ==> groups[i].names != names
  {
    if groups == [] || groups[0].names == names then 0 else
    assert forall i :: 0 < i < |groups| ==> groups[1..][i - 1] == groups[i];
    1 + Place(groups[1..], names)
  }

  lemma {:induction false} UpdateTail(groups: seq<Group>, k: nat, g: Group)
    requires 0 < k <= |groups|
    ensures k < |groups| ==> [groups[0]] + groups[1..][k - 1 := g] == groups[k := g]
    ensures [groups[0]] + (groups[1..] + [g]) == groups + [g]
  {
  }

  lemma {:induction false} AddToGroupAt(groups: seq<Group>, names: seq<string>, c: nat)
    ensures
      var k := Place(groups, names);
      AddToGroup(groups, names, c) ==
      if k < |groups| then groups[k := Group(names, groups[k].channels + [c])] else groups + [Group(names, [c])]
    decreases groups
  {
    if groups != [] && groups[0].names != names {
      AddToGroupAt(groups[1..], names, c);
      var k := Place(groups, names);
      assert k < |groups| ==> groups[1..][k - 1] == groups[k];
      UpdateTail(groups, k, Group(names, if k < |groups| then groups[k].channels + [c] else [c]));
    } else if groups != [] {
      assert groups[0 := Group(names, groups[0].channels + [c])] ==
          [Group(names, groups[0].channels + [c])] + groups[1..];
    }
  }

  lemma {:induction false} GroupsGroup(base: seq<Stage>, keys: seq<nat>, names: seq<string>)
    requires Distinct(keys)
    ensures GroupsBy(Groups(base, keys, names), keys, c => Lacking(base, c, names))
  {
    if keys != [] {
      var n, key := |keys| - 1, (c: nat) => Lacking(base, c, names);
      GroupsGroup(base, keys[..n], names);
      var before := Groups(base, keys[..n], names);
      assert Lists(before, keys[..n], key);
      assert keys == keys[..n] + [keys[n]];
      GroupsGrow(before, keys[..n], key, keys[n]);
    }
  }

  lemma {:induction false} GroupsGrow(groups: seq<Group>, keys: seq<nat>, key: nat -> seq<string>, c: nat)
    requires GroupsBy(groups, keys, key) && c !in keys
    ensures GroupsBy(AddToGroup(groups, key(c), c), keys + [c], key)
  {
    var r, k := AddToGroup(groups, key(c), c), Place(groups, key(c));
    AddToGroupAt(groups, key(c), c);
    forall i | 0 <= i < |r|
      ensures ListsWell(r[i], keys + [c], key)
    {
      if i < |groups| {
        assert ListsWell(groups[i], keys, key) && c !in groups[i].channels;
      }
    }
    forall d | d in keys + [c]
      ensures InSomeGroup(r, d)
    {
      if d in keys {
        var i :| 0 <= i < |groups| && d in groups[i].channels;
        assert d in r[i].channels;
      } else {
        assert d in r[k].channels;
      }
    }
  }

  lemma {:induction false} InSomeGroupStep(groups: seq<Group>, c: nat)
    requires groups != []
    ensures var n := |groups| - 1; InSomeGroup(groups, c) <==> InSomeGroup(groups[..n], c) || c in groups[n].channels
  {
    var n := |groups| - 1;
    if InSomeGroup(groups[..n], c) {
      var i :| 0 <= i < n && c in groups[..n][i].channels;
      assert c in groups[i].channels;
    } else {
      assert forall i :: 0 <= i < n ==> groups[..n][i] == groups[i];
    }
  }

  lemma {:induction false} GroupStagesStep(front: seq<Group>, g: Group, c: nat)
    ensures
      Chain(GroupStages(front + [g]), c) == Chain(GroupStages(front), c) + if c in g.channels then g.names else []
  {
    assert (front + [g])[..|front|] == front;
    if g.names == [] {
      EmptyLast(GroupStages(front));
      EmptyLast(Chain(GroupStages(front), c));
    } else {
      ChainStep(GroupStages(front), Filters(g.channels, g.names, map[]), c);
    }
  }

  /** A channel outside every group has nothing in the grouped stages; one inside has exactly its group's names. */
  lemma {:induction false} GroupStagesChain(groups: seq<Group>, keys: seq<nat>, key: nat -> seq<string>, c: nat)
    requires DistinctNames(groups) && Lists(groups, keys, key)
    ensures Chain(GroupStages(groups), c) == if InSomeGroup(groups, c) then key(c) else []
  {
    if groups != [] {
      var n := |groups| - 1;
      var front, g := groups[..n], groups[n];
      assert groups == front + [g];
      GroupStagesChain(front, keys, key, c);
      GroupStagesStep(front, g, c);
      InSomeGroupStep(groups, c);
      assert ListsWell(g, keys, key);
      if i :| 0 <= i < n && c in front[i].channels {
        assert ListsWell(front[i], keys, key) && groups[i] == front[i] && groups[i].names != g.names;
      }
    }
  }

  function Appended(base: seq<Stage>, channels: seq<nat>, names: seq<string>): seq<Stage> {
    GainStages(base, Keys(channels)) + GroupStages(Groups(base, Keys(channels), names))
  }

  /** What a load appends to one channel's chain: nothing off the BEQ channels, else the gain filter it lacks followed
      by the BEQ filters it lacks. */
  function Gained(base: seq<Stage>, channels: seq<nat>, names: seq<string>, c: nat): seq<string> {
    if c !in channels then [] else
    (if Carries(base, c, GainName(c)) then [] else [GainName(c)]) + Lacking(base, c, names)
  }

  lemma {:induction false} GroupedChain(base: seq<Stage>, channels: seq<nat>, names: seq<string>, c: nat)
    ensures Chain(GroupStages(Groups(base, Keys(channels), names)), c) == if c in channels then Lacking(base, c, names)
        else []
  {
    var keys, key := Keys(channels), (c: nat) => Lacking(base, c, names);
    var groups := Groups(base, keys, names);
    KeysAreDistinct(channels);
    GroupsGroup(base, keys, names);
    assert Lists(groups, keys, key);
    GroupStagesChain(groups, keys, key, c);
    if InSomeGroup(groups, c) {
      var i :| 0 <= i < |groups| && c in groups[i].channels;
      assert ListsWell(groups[i], keys, key);
    }
  }

  lemma {:induction false} AppendedChain(base: seq<Stage>, channels: seq<nat>, names: seq<string>, c: nat)
    ensures Chain(Appended(base, channels, names), c) == Gained(base, channels, names, c)
  {
    KeysAreDistinct(channels);
    GainStagesChain(base, Keys(channels), c);
    GroupedChain(base, channels, names, c);
    ChainAppend(GainStages(base, Keys(channels)), GroupStages(Groups(base, Keys(channels), names)), c);
  }

  /** The old pipeline is a prefix of the new one, and each chain grows by exactly what the channel lacks. */
  lemma {:induction false} LoadExtendsChains(base: seq<Stage>, channels: seq<nat>, names: seq<string>, c: nat)
    ensures EntryPipeline(base, channels, names) == base + Appended(base, channels, names)
    ensures Chain(EntryPipeline(base, channels, names), c) == Chain(base, c) + Gained(base, channels, names, c)
  {
    Regroup(base, GainStages(base, Keys(channels)), GroupStages(Groups(base, Keys(channels), names)));
    ChainAppend(base, Appended(base, channels, names), c);
    AppendedChain(base, channels, names, c);
  }

  lemma {:induction false} InsertPermutes(x: string, s: seq<string>)
    ensures multiset(Insert(x, s)) == multiset([x] + s)
  {
    if s != [] && StringLess(s[0], x) {
      InsertPermutes(x, s[1..]);
      assert s == [s[0]] + s[1..];
    }
  }

  /** Sorting keeps every name as often as it was. */
  lemma {:induction false} SortedPermutes(s: seq<string>)
    ensures multiset(Sorted(s)) == multiset(s)
  {
    if s != [] {
      SortedPermutes(s[1..]);
      InsertPermutes(s[0], Sorted(s[1..]));
      assert s == [s[0]] + s[1..];
    }
  }

  lemma {:induction false} MissingCounts(base: seq<Stage>, c: int, names: seq<string>, n: string)
    ensures multiset(Missing(base, c, names))[n] == if Carries(base, c, n) then 0 else multiset(names)[n]
  {
    if names != [] {
      var k := |names| - 1;
      MissingCounts(base, c, names[..k], n);
      assert names == names[..k] + [names[k]];
      assert multiset(names) == multiset(names[..k]) + multiset{names[k]};
      var last := if Carries(base, c, names[k]) then [] else [names[k]];
      assert multiset(Missing(base, c, names)) == multiset(Missing(base, c, names[..k])) + multiset(last);
    }
  }

  lemma {:induction false} DistinctCounts(s: seq<string>, x: string)
    requires Distinct(s)
    ensures multiset(s)[x] == if x in s then 1 else 0
  {
    if s != [] {
      var k := |s| - 1;
      DistinctCounts(s[..k], x);
      assert s == s[..k] + [s[k]];
    }
  }

  /** After a load every BEQ name is on every BEQ channel: once if the channel lacked it, otherwise as often as
      before. */
  lemma {:induction false} EachBeqFilterOnce(base: seq<Stage>, channels: seq<nat>, n: nat, c: nat, i: nat)
    requires c in channels && i < n
    ensures
      var before, after := multiset(Chain(base, c)), multiset(Chain(EntryPipeline(base, channels, BeqNames(n)), c));
      after[BeqName(i)] == if BeqName(i) in before then before[BeqName(i)] else 1
  {
    var names := BeqNames(n);
    LoadExtendsChains(base, channels, names, c);
    SortedPermutes(Missing(base, c, names));
    MissingCounts(base, c, names, BeqName(i));
    BeqNamesDistinct(n);
    DistinctCounts(names, BeqName(i));
    assert names[i] == BeqName(i);
    CarriesIffInChain(base, c, BeqName(i));
    NamesDiffer(c, c, i, i);
  }

  // ---- the stages appended ----

  function NonEmpty(groups: seq<Group>): seq<Group> {
    if groups == [] then [] else
    var n := |groups| - 1;
    NonEmpty(groups[..n]) + if groups[n].names == [] then [] else [groups[n]]
  }

  lemma {:induction false} GroupStagesAre(groups: seq<Group>)
    ensures var r, g := GroupStages(groups), NonEmpty(groups);
            |r| == |g| && forall i :: 0 <= i < |r| ==> r[i] == Filters(g[i].channels, g[i].names, map[])
  {
    if groups != [] { GroupStagesAre(groups[..|groups| - 1]); }
  }

  lemma {:induction false} NonEmptyKeeps(groups: seq<Group>, keys: seq<nat>, key: nat -> seq<string>)
    requires DistinctNames(groups) && Lists(groups, keys, key)
    ensures DistinctNames(NonEmpty(groups)) && Lists(NonEmpty(groups), keys, key)
    ensures forall g :: g in NonEmpty(groups) <==> g in groups && g.names != []
  {
    if groups != [] {
      var n := |groups| - 1;
      var front := NonEmpty(groups[..n]);
      assert Lists(groups[..n], keys, key);
      NonEmptyKeeps(groups[..n], keys, key);
      assert groups == groups[..n] + [groups[n]];
      forall i | 0 <= i < |front|
        ensures front[i].names != groups[n].names
      {
        assert front[i] in groups[..n];
      }
      assert ListsWell(groups[n], keys, key);
    }
  }

  /** The sets of filters lacking, without the empty one. */
  function LackingSets(base: seq<Stage>, channels: seq<nat>, names: seq<string>): set<seq<string>> {
    set c | c in channels && Lacking(base, c, names) != [] :: Lacking(base, c, names)
  }

  /** The stages are disjoint, and each lists channels that lack exactly its filters. */
  ghost predicate Disjoint(stages: seq<Stage>, base: seq<Stage>, channels: seq<nat>, names: seq<string>) {
    && (forall i :: 0 <= i < |stages| ==> stages[i].Filters? && stages[i].names != [] && Distinct(stages[i].channels))
    && (forall i, j, c :: 0 <= i < j < |stages| && c in stages[i].channels ==> c !in stages[j].channels)
    && (forall i, c :: 0 <= i < |stages| && c in stages[i].channels ==>
          c in channels && 0 <= c && stages[i].names == Lacking(base, c, names))
  }

  ghost predicate InSomeStage(stages: seq<Stage>, c: int) {
    exists i :: 0 <= i < |stages| && stages[i].Filters? && c in stages[i].channels
  }

  lemma {:induction false} KeptGroupsAreDisjoint(
      kept: seq<Group>, stages: seq<Stage>, base: seq<Stage>, channels: seq<nat>, names: seq<string>)
    requires |stages| == |kept| && forall i :: 0 <= i < |kept| ==>
        stages[i] == Filters(kept[i].channels, kept[i].names, map[])
    requires DistinctNames(kept) && Lists(kept, Keys(channels), c => Lacking(base, c, names))
    requires forall i :: 0 <= i < |kept| ==> kept[i].names != []
    ensures Disjoint(stages, base, channels, names)
  {
    KeysAreDistinct(channels);
    assert forall i :: 0 <= i < |kept| ==> ListsWell(kept[i], Keys(channels), c => Lacking(base, c, names));
  }

  /** The BEQ stages appended: one for each distinct non-empty set of filters lacking, together listing every channel
      that lacks some in exactly one stage. */
  lemma {:induction false} AppendedStagesPartition(base: seq<Stage>, channels: seq<nat>, names: seq<string>)
    ensures
      var stages := GroupStages(Groups(base, Keys(channels), names));
      && |stages| == |LackingSets(base, channels, names)|
      && Disjoint(stages, base, channels, names)
      && (forall c :: c in channels && Lacking(base, c, names) != [] ==> InSomeStage(stages, c))
  {
    var keys, key := Keys(channels), (c: nat) => Lacking(base, c, names);
    var groups := Groups(base, keys, names);
    var kept, stages := NonEmpty(groups), GroupStages(groups);
    KeysAreDistinct(channels);
    GroupsGroup(base, keys, names);
    assert Lists(groups, keys, key);
    GroupStagesAre(groups);
    NonEmptyKeeps(groups, keys, key);
    KeptGroupsAreDisjoint(kept, stages, base, channels, names);
    forall c | c in channels && Lacking(base, c, names) != []
      ensures InSomeGroup(kept, c) && InSomeStage(stages, c)
    {
      var k :| 0 <= k < |groups| && c in groups[k].channels;
      assert ListsWell(groups[k], keys, key);
      var i :| 0 <= i < |kept| && kept[i] == groups[k];
      assert c in stages[i].channels;
    }
    LackingSetsAreTheNames(kept, base, channels, names);
  }

  lemma {:induction false} LackingSetsAreTheNames(
      kept: seq<Group>, base: seq<Stage>, channels: seq<nat>, names: seq<string>)
    requires DistinctNames(kept) && Lists(kept, Keys(channels), c => Lacking(base, c, names))
    requires forall i :: 0 <= i < |kept| ==> kept[i].names != []
    requires forall c :: c in channels && Lacking(base, c, names) != [] ==> InSomeGroup(kept, c)
    ensures |kept| == |LackingSets(base, channels, names)|
  {
    var key := (c: nat) => Lacking(base, c, names);
    KeysAreDistinct(channels);
    var all := NamesOf(kept);
    forall x
      ensures x in all <==> x in LackingSets(base, channels, names)
    {
      if x in all {
        var i :| 0 <= i < |kept| && kept[i].names == x;
        assert ListsWell(kept[i], Keys(channels), key);
        assert kept[i].channels[0] in channels;
      }
      if x in LackingSets(base, channels, names) {
        var c :| c in channels && Lacking(base, c, names) == x && x != [];
        var i :| 0 <= i < |kept| && c in kept[i].channels;
        assert ListsWell(kept[i], Keys(channels), key);
      }
    }
    assert all == LackingSets(base, channels, names);
    NamesOfSize(kept);
  }

  function NamesOf(groups: seq<Group>): set<seq<string>> { set i | 0 <= i < |groups| :: groups[i].names }

  lemma {:induction false} NamesOfSize(groups: seq<Group>)
    requires DistinctNames(groups)
    ensures |NamesOf(groups)| == |groups|
  {
    if groups != [] {
      var n := |groups| - 1;
      NamesOfSize(groups[..n]);
      assert NamesOf(groups) == NamesOf(groups[..n]) + {groups[n].names};
    }
  }
}
