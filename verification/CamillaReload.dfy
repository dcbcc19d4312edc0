/** Loading over an earlier load: when the earlier one leaves no trace. */
module CamillaReload {
  import opened Common
  import opened CamillaConfig
  import opened CamillaTheorems

  // ---- filters ----

  lemma {:induction false} GainFilterOver(was: Option<Filter>, g1: real, m1: bool, g2: real, m2: bool)
    ensures GainFilter(Some(GainFilter(was, g1, m1)), g2, m2) == GainFilter(was, g2, m2)
  {
    assert GainFilter(Some(GainFilter(was, g1, m1)), g2, m2).parameters == GainFilter(was, g2, m2).parameters;
  }

  lemma {:induction false} ReloadedFilter(e1: Option<Entry>, e2: Option<Entry>, base: Config, channels: seq<nat>,
                       g1: real, m1: bool, g2: real, m2: bool, name: string)
    requires |Padded(e1)| == |Padded(e2)|
    ensures Get(EntryConfig(e2, EntryConfig(e1, base, channels, g1, m1), channels, g2, m2).FilterMap(), name)
         == Get(EntryConfig(e2, base, channels, g2, m2).FilterMap(), name)
  {
    var first := EntryConfig(e1, base, channels, g1, m1);
    EntryFilterAt(e1, base, channels, g1, m1, name);
    EntryFilterAt(e2, first, channels, g2, m2, name);
    EntryFilterAt(e2, base, channels, g2, m2, name);
    if i :| 0 <= i < |Padded(e2)| && name == BeqName(i) {
    } else if IsGainName(name, channels) {
      GainFilterOver(Get(base.FilterMap(), name), g1, m1, g2, m2);
    }
  }

  // ---- pipeline ----

  lemma {:induction false} LoadedCarries(base: seq<Stage>, channels: seq<nat>, names: seq<string>, c: nat, name: string)
    requires c in channels && (name == GainName(c) || name in names)
    ensures Carries(EntryPipeline(base, channels, names), c, name)
  {
    LoadExtendsChains(base, channels, names, c);
    CarriesIffInChain(EntryPipeline(base, channels, names), c, name);
    CarriesIffInChain(base, c, name);
    if !Carries(base, c, name) && name in names {
      MissingCounts(base, c, names, name);
      SortedPermutes(Missing(base, c, names));
      assert name in multiset(Lacking(base, c, names));
    }
  }

  lemma {:induction false} NothingMissing(p: seq<Stage>, c: int, names: seq<string>)
    requires forall n :: n in names ==> Carries(p, c, n)
    ensures Missing(p, c, names) == []
  {
    if names != [] { NothingMissing(p, c, names[..|names| - 1]); }
  }

  lemma {:induction false} NoGainStages(p: seq<Stage>, keys: seq<nat>)
    requires forall c :: c in keys ==> Carries(p, c, GainName(c))
    ensures GainStages(p, keys) == []
  {
    if keys != [] { NoGainStages(p, keys[..|keys| - 1]); }
  }

  lemma {:induction false} NoGroupStages(groups: seq<Group>)
    requires forall i :: 0 <= i < |groups| ==> groups[i].names == []
    ensures GroupStages(groups) == []
  {
    if groups != [] { NoGroupStages(groups[..|groups| - 1]); }
  }

  lemma {:induction false} NothingLacking(base: seq<Stage>, channels: seq<nat>, names: seq<string>, c: nat)
    requires c in channels
    ensures var p := EntryPipeline(base, channels, names); Carries(p, c, GainName(c)) && Lacking(p, c, names) == []
  {
    var p := EntryPipeline(base, channels, names);
    LoadedCarries(base, channels, names, c, GainName(c));
    forall n | n in names
      ensures Carries(p, c, n)
    {
      LoadedCarries(base, channels, names, c, n);
    }
    NothingMissing(p, c, names);
  }

  lemma {:induction false} NoBeqStages(p: seq<Stage>, keys: seq<nat>, names: seq<string>)
    requires Distinct(keys) && forall c :: c in keys ==> Lacking(p, c, names) == []
    ensures GroupStages(Groups(p, keys, names)) == []
  {
    var key, groups := (c: nat) => Lacking(p, c, names), Groups(p, keys, names);
    GroupsGroup(p, keys, names);
    assert Lists(groups, keys, key);
    forall i | 0 <= i < |groups|
      ensures groups[i].names == []
    {
      assert ListsWell(groups[i], keys, key);
      assert groups[i].channels[0] in keys;
    }
    NoGroupStages(groups);
  }

  /** A pipeline that was loaded once does not grow on the next load of the same names. */
  lemma {:induction false} PipelineStopsGrowing(base: seq<Stage>, channels: seq<nat>, names: seq<string>)
    ensures var p := EntryPipeline(base, channels, names); EntryPipeline(p, channels, names) == p
  {
    var p, keys := EntryPipeline(base, channels, names), Keys(channels);
    KeysAreDistinct(channels);
    forall c | c in keys
      ensures Carries(p, c, GainName(c)) && Lacking(p, c, names) == []
    {
      NothingLacking(base, channels, names, c);
    }
    NoGainStages(p, keys);
    NoBeqStages(p, keys, names);
    EmptyLast(p);
  }

  // ---- the last load wins ----

  /** The second load gives what it would have given had the first never happened, whatever the configuration. */
  ghost predicate LastWins(
      e1: Option<Entry>, e2: Option<Entry>, channels: seq<nat>, g1: real, m1: bool, g2: real, m2: bool) {
    forall base: Config ::
      EntryConfig(e2, EntryConfig(e1, base, channels, g1, m1), channels, g2, m2) ==
          EntryConfig(e2, base, channels, g2, m2)
  }

  lemma {:induction false} ReloadForgets(
      e1: Option<Entry>, e2: Option<Entry>, base: Config, channels: seq<nat>, g1: real, m1: bool, g2: real, m2: bool)
    requires |Padded(e1)| == |Padded(e2)|
    ensures EntryConfig(e2, EntryConfig(e1, base, channels, g1, m1), channels, g2, m2) ==
        EntryConfig(e2, base, channels, g2, m2)
  {
    var first := EntryConfig(e1, base, channels, g1, m1);
    var twice, once := EntryConfig(e2, first, channels, g2, m2), EntryConfig(e2, base, channels, g2, m2);
    forall name
      ensures Get(twice.FilterMap(), name) == Get(once.FilterMap(), name)
    {
      ReloadedFilter(e1, e2, base, channels, g1, m1, g2, m2, name);
    }
    SameMaps(twice.FilterMap(), once.FilterMap());
    PipelineStopsGrowing(base.Pipeline(), channels, BeqNames(|Padded(e2)|));
  }

  const EMPTY := Config(None, None, map[])

  /** A longer entry leaves filters behind that a shorter one never names. */
  lemma {:induction false} LongerLeavesFilters(
      e1: Option<Entry>, e2: Option<Entry>, channels: seq<nat>, g1: real, m1: bool, g2: real, m2: bool)
    requires |Padded(e1)| > |Padded(e2)|
    ensures EntryConfig(e2, EntryConfig(e1, EMPTY, channels, g1, m1), channels, g2, m2) !=
        EntryConfig(e2, EMPTY, channels, g2, m2)
  {
    var first, name := EntryConfig(e1, EMPTY, channels, g1, m1), BeqName(|Padded(e2)|);
    EntryFilterAt(e1, EMPTY, channels, g1, m1, name);
    EntryFilterAt(e2, first, channels, g2, m2, name);
    EntryFilterAt(e2, EMPTY, channels, g2, m2, name);
    forall i | 0 <= i < |Padded(e2)|
      ensures name != BeqName(i)
    {
      NamesDiffer(0, 0, i, |Padded(e2)|);
    }
    forall i | 0 <= i < |channels|
      ensures name != GainName(channels[i])
    {
      NamesDiffer(channels[i], 0, |Padded(e2)|, 0);
    }
  }

  lemma {:induction false} FirstKey(channels: seq<nat>)
    requires channels != []
    ensures Keys(channels) != []
  {
    KeysAreDistinct(channels);
    assert channels[0] in Keys(channels);
  }

  lemma {:induction false} OneGroupOfAll(keys: seq<nat>, names: seq<string>)
    requires keys != []
    ensures Groups([], keys, names) == [Group(Sorted(names), keys)]
  {
    var n := |keys| - 1;
    AllMissing(keys[n], names);
    assert keys == keys[..n] + [keys[n]];
    if n > 0 {
      OneGroupOfAll(keys[..n], names);
    } else {
      assert Groups([], keys[..0], names) == [];
    }
  }

  lemma {:induction false} AllMissing(c: int, names: seq<string>)
    ensures Missing([], c, names) == names
  {
    if names != [] {
      AllMissing(c, names[..|names| - 1]);
      assert names == names[..|names| - 1] + [names[|names| - 1]];
    }
  }

  lemma {:induction false} AllGains(keys: seq<nat>)
    ensures GainStages([], keys) ==
        seq(|keys|, i requires 0 <= i < |keys| => Filters([keys[i]], [GainName(keys[i])], map[]))
  {
    if keys != [] { AllGains(keys[..|keys| - 1]); }
  }

  /** On an empty pipeline a load makes one gain stage a channel and then one stage of all the entry's names. */
  lemma {:induction false} LoadOnEmpty(channels: seq<nat>, names: seq<string>)
    requires channels != [] && names != []
    ensures
      var p, n := EntryPipeline([], channels, names), |Keys(channels)|;
      |p| == n + 1 && p[n] == Filters(Keys(channels), Sorted(names), map[])
  {
    var keys := Keys(channels);
    FirstKey(channels);
    OneGroupOfAll(keys, names);
    AllGains(keys);
    SortedPermutes(names);
    assert Sorted(names) != [] by { assert names[0] in multiset(Sorted(names)); }
    var g := Group(Sorted(names), keys);
    assert [g][..0] == [];
    EmptyFirst(GroupStage(g));
    assert GroupStages([g]) == [Filters(keys, Sorted(names), map[])];
  }

  /** A shorter entry has already fixed the names of the stage, so a longer one needs another. */
  lemma {:induction false} ShorterFixesStages(
      e1: Option<Entry>, e2: Option<Entry>, channels: seq<nat>, g1: real, m1: bool, g2: real, m2: bool)
    requires |Padded(e1)| < |Padded(e2)| && channels != []
    ensures EntryConfig(e2, EntryConfig(e1, EMPTY, channels, g1, m1), channels, g2, m2) !=
        EntryConfig(e2, EMPTY, channels, g2, m2)
  {
    var names1, names2, k := BeqNames(|Padded(e1)|), BeqNames(|Padded(e2)|), |Keys(channels)|;
    LoadOnEmpty(channels, names1);
    LoadOnEmpty(channels, names2);
    var once := EntryPipeline([], channels, names1);
    LoadExtendsChains(once, channels, names2, 0);
    assert EntryPipeline(once, channels, names2)[k] == once[k];
    SortedPermutes(names1);
    SortedPermutes(names2);
    assert |Sorted(names1)| == |multiset(Sorted(names1))| && |Sorted(names2)| == |multiset(Sorted(names2))|;
  }

  /** The last load wins exactly when both entries, padded to ten, have the same number of filters; in particular any
      two entries of at most ten, a clear among them. */
  lemma {:induction false} LastLoadWinsIffSameLength(
      e1: Option<Entry>, e2: Option<Entry>, channels: seq<nat>, g1: real, m1: bool, g2: real, m2: bool)
    requires channels != []
    ensures LastWins(e1, e2, channels, g1, m1, g2, m2) <==> |Padded(e1)| == |Padded(e2)|
  {
    if |Padded(e1)| > |Padded(e2)| {
      LongerLeavesFilters(e1, e2, channels, g1, m1, g2, m2);
    } else if |Padded(e1)| < |Padded(e2)| {
      ShorterFixesStages(e1, e2, channels, g1, m1, g2, m2);
    } else {
      forall base: Config
        ensures EntryConfig(e2, EntryConfig(e1, base, channels, g1, m1), channels, g2, m2) ==
            EntryConfig(e2, base, channels, g2, m2)
      {
        ReloadForgets(e1, e2, base, channels, g1, m1, g2, m2);
      }
    }
  }
}
