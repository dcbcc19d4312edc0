/** Which updates of a CamillaDSP configuration come to an end, told from what the device holds and the request. */
module CamillaUpdates {
  import opened Common
  import Text
  import opened CamillaConfig
  import opened CamillaTheorems
  import opened CamillaGains
  import opened CamillaReadback
  import opened CamillaContents
  import opened CamillaProtocol
  import opened CamillaProtocolTheorems

  // ---- what a load does to a readable pipeline ----

  lemma {:induction false} BeqIsNoGain(i: nat)
    ensures !IsGainFilterName(BeqName(i))
  {
    Text.ReadDecimal(i);
    DropPrefix(BEQ_PREFIX, Text.Decimal(i));
    assert BeqName(i)[4] == Text.Decimal(i)[0];
    assert (BEQ_PREFIX + "Gain")[4] == 'G';
  }

  /** A gain filter that reads goes on reading after a load. */
  lemma {:induction false} LoadedNameReads(
      e: Option<Entry>, base: Config, beqChannels: seq<nat>, gain: real, channels: seq<int>, name: string)
    requires NameReads(channels, name, Get(base.FilterMap(), name))
    ensures NameReads(channels, name, Get(EntryConfig(e, base, beqChannels, gain, false).FilterMap(), name))
  {
    if IsGainFilterName(name) {
      EntryFilterAt(e, base, beqChannels, gain, false, name);
      forall i | 0 <= i < |Padded(e)|
        ensures name != BeqName(i)
      {
        BeqIsNoGain(i);
      }
    }
  }

  /** The gain filter of a BEQ channel reads after a load in any case. */
  lemma {:induction false} LoadedGainReads(e: Option<Entry>, base: Config, beqChannels: seq<nat>, gain: real, c: nat)
    requires c in beqChannels
    ensures NameReads([c], GainName(c), Get(EntryConfig(e, base, beqChannels, gain, false).FilterMap(), GainName(c)))
  {
    EntryFilterAt(e, base, beqChannels, gain, false, GainName(c));
    var i :| 0 <= i < |beqChannels| && beqChannels[i] == c;
    assert IsGainName(GainName(c), beqChannels);
  }

  lemma {:induction false} AppendReads(a: seq<Stage>, b: seq<Stage>, fs: FilterMap)
    ensures PipelineReads(a + b, fs) <==> PipelineReads(a, fs) && PipelineReads(b, fs)
  {
    if b == [] {
      EmptyLast(a);
    } else {
      var n := |b| - 1;
      assert a + b == a + b[..n] + [b[n]] && b == b[..n] + [b[n]];
      AppendReads(a, b[..n], fs);
      AppendedReads(a + b[..n], b[n], fs);
      AppendedReads(b[..n], b[n], fs);
    }
  }

  lemma {:induction false} GainStagesRead(base: seq<Stage>, keys: seq<nat>, fs: FilterMap)
    requires forall c :: c in keys ==> NameReads([c], GainName(c), Get(fs, GainName(c)))
    ensures PipelineReads(GainStages(base, keys), fs)
  {
    if keys != [] {
      var n := |keys| - 1;
      GainStagesRead(base, keys[..n], fs);
      AppendReads(GainStages(base, keys[..n]), GainStage(base, keys[n]), fs);
      assert keys[n] in keys;
    }
  }

  lemma {:induction false} GroupStagesRead(groups: seq<Group>, fs: FilterMap)
    requires forall i, name :: 0 <= i < |groups| && name in groups[i].names ==> !IsGainFilterName(name)
    ensures PipelineReads(GroupStages(groups), fs)
  {
    if groups != [] {
      var n := |groups| - 1;
      GroupStagesRead(groups[..n], fs);
      AppendReads(GroupStages(groups[..n]), GroupStage(groups[n]), fs);
      assert forall name :: name in groups[n].names ==> !IsGainFilterName(name);
    }
  }

  lemma {:induction false} LackingAreNames(base: seq<Stage>, c: int, names: seq<string>, name: string)
    requires name in Lacking(base, c, names)
    ensures name in names
  {
    SortedPermutes(Missing(base, c, names));
    assert name in multiset(Sorted(Missing(base, c, names)));
    MissingCounts(base, c, names, name);
    assert name in multiset(names);
  }

  lemma {:induction false} BeqNamesAreNoGains(n: nat, name: string)
    requires name in BeqNames(n)
    ensures !IsGainFilterName(name)
  {
    var k :| 0 <= k < n && BeqNames(n)[k] == name;
    BeqIsNoGain(k);
  }

  lemma {:induction false} GroupsHoldBeqs(base: seq<Stage>, keys: seq<nat>, n: nat, i: nat, name: string)
    requires Distinct(keys)
    requires i < |Groups(base, keys, BeqNames(n))| && name in Groups(base, keys, BeqNames(n))[i].names
    ensures !IsGainFilterName(name)
  {
    var g := Groups(base, keys, BeqNames(n))[i];
    GroupsGroup(base, keys, BeqNames(n));
    assert ListsWell(g, keys, c => Lacking(base, c, BeqNames(n)));
    assert g.channels[0] in g.channels;
    LackingAreNames(base, g.channels[0], BeqNames(n), name);
    BeqNamesAreNoGains(n, name);
  }

  /** A configuration whose gains can be read is one that can be read after a load, too. */
  lemma {:induction false} LoadStaysReadable(e: Option<Entry>, base: Config, channels: seq<nat>, gain: real)
    requires PipelineReads(base.Pipeline(), base.FilterMap())
    ensures
      var cfg := EntryConfig(e, base, channels, gain, false);
      PipelineReads(cfg.Pipeline(), cfg.FilterMap())
  {
    var cfg := EntryConfig(e, base, channels, gain, false);
    var p, fs, keys := base.Pipeline(), cfg.FilterMap(), Keys(channels);
    KeysAreDistinct(channels);
    BaseStaysReadable(e, base, channels, gain);
    forall c | c in keys
      ensures NameReads([c], GainName(c), Get(fs, GainName(c)))
    {
      LoadedGainReads(e, base, channels, gain, c);
    }
    GainStagesRead(p, keys, fs);
    var groups := Groups(p, keys, BeqNames(|Padded(e)|));
    forall i, name | 0 <= i < |groups| && name in groups[i].names
      ensures !IsGainFilterName(name)
    {
      GroupsHoldBeqs(p, keys, |Padded(e)|, i, name);
    }
    GroupStagesRead(groups, fs);
    AppendReads(p, GainStages(p, keys), fs);
    AppendReads(p + GainStages(p, keys), GroupStages(groups), fs);
  }

  lemma {:induction false} BaseStaysReadable(e: Option<Entry>, base: Config, channels: seq<nat>, gain: real)
    requires PipelineReads(base.Pipeline(), base.FilterMap())
    ensures PipelineReads(base.Pipeline(), EntryConfig(e, base, channels, gain, false).FilterMap())
  {
    var p, fs := base.Pipeline(), EntryConfig(e, base, channels, gain, false).FilterMap();
    forall k, i | 0 <= k < |p| && p[k].Filters? && 0 <= i < |p[k].names|
      ensures NameReads(p[k].channels, p[k].names[i], Get(fs, p[k].names[i]))
    {
      assert StageReads(p[k], base.FilterMap());
      LoadedNameReads(e, base, channels, gain, p[k].channels, p[k].names[i]);
    }
  }

  // ---- what gain changes do to one ----

  lemma {:induction false} ChangedStaysReadable(p: seq<Stage>, fs: FilterMap, values: seq<Change>)
    requires Distinct(Channels(values)) && PipelineReads(p, fs)
    ensures PipelineReads(p, ChangedFilters(fs, values))
  {
    forall k, i | 0 <= k < |p| && p[k].Filters? && 0 <= i < |p[k].names|
      ensures NameReads(p[k].channels, p[k].names[i], Get(ChangedFilters(fs, values), p[k].names[i]))
    {
      assert StageReads(p[k], fs);
      ChangedFilterAt(fs, values, p[k].names[i]);
    }
  }

  /** The levels needed to show some changes: each that sets something finds its channel. */
  predicate Found(levels: seq<Reading>, values: seq<Change>) {
    forall i :: 0 <= i < |values| && (values[i].gain.Some? || values[i].mute.Some?) ==>
        HasLevel(levels, values[i].channel)
  }

  predicate HasLevel(levels: seq<Reading>, c: int) { exists k :: 0 <= k < |levels| && levels[k].id == c }

  lemma {:induction false} FindIff(levels: seq<Reading>, c: int)
    ensures Find(levels, c) < |levels| <==> HasLevel(levels, c)
  {
    if levels != [] && levels[0].id != c {
      FindIff(levels[1..], c);
      if k :| 0 <= k < |levels| && levels[k].id == c { assert levels[1..][k - 1].id == c; }
      if k :| 0 <= k < |levels[1..]| && levels[1..][k].id == c { assert levels[k + 1].id == c; }
    }
  }

  lemma {:induction false} SameIds(levels: seq<Reading>, more: seq<Reading>, values: seq<Change>)
    requires |levels| == |more| && forall k :: 0 <= k < |levels| ==> levels[k].id == more[k].id
    ensures Found(levels, values) <==> Found(more, values)
  {
    forall c: int
      ensures HasLevel(levels, c) <==> HasLevel(more, c)
    {
      if k :| 0 <= k < |levels| && levels[k].id == c { assert more[k].id == c; }
      if k :| 0 <= k < |more| && more[k].id == c { assert levels[k].id == c; }
    }
  }

  /** The callback of a gain update raises exactly if one of its channels shows no level. */
  lemma {:induction false} ShowGainsIff(levels: seq<Reading>, values: seq<Change>)
    ensures ShowGains(levels, values).1 <==> Found(levels, values)
    decreases |values|
  {
    if values != [] {
      var v, rest := values[0], values[1..];
      FindIff(levels, v.channel);
      assert Found(levels, values) <==>
             ((v.gain.Some? || v.mute.Some?) ==> HasLevel(levels, v.channel)) && Found(levels, rest) by {
        assert values == [v] + rest;
      }
      if v.gain.None? && v.mute.None? {
        ShowGainsIff(levels, rest);
      } else if HasLevel(levels, v.channel) {
        var k := Find(levels, v.channel);
        var more := levels[k := SetLevel(levels[k], v)];
        ShowGainsIff(more, rest);
        SameIds(levels, more, rest);
      }
    }
  }

  lemma {:induction false} ShownIsLevel(levels: seq<Reading>, c: int)
    requires ReadingsOf(levels, c) != []
    ensures HasLevel(levels, c)
  {
    var n := |levels| - 1;
    if levels[n].id != c {
      ShownIsLevel(levels[..n], c);
      var k :| 0 <= k < n && levels[..n][k].id == c;
      assert levels[k].id == c;
    }
  }

  /** Every channel of the device shows a level once the gains of a pipeline have been read. */
  lemma {:induction false} ChannelsShowLevels(cfg: Config, channels: seq<nat>, c: nat)
    requires LevelsShown(cfg, channels).Levels? && c in channels
    ensures HasLevel(LevelsShown(cfg, channels).rs, c)
  {
    LastGainIsShown(Initial(channels), cfg.Pipeline(), cfg.FilterMap(), c);
    InitialShows(channels, c);
    ShownIsLevel(LevelsShown(cfg, channels).rs, c);
  }

  // ---- a whole exchange ----

  /** Nothing in progress and nothing on the way. */
  predicate Ready(s: System) { s.client.updater.None? && s.toServer == [] && s.toClient == [] }

  /** The server answers, and the answer is delivered. */
  function Answered(s: System, ok: bool, channels: seq<nat>): System {
    Step(Step(s, Serve(ok), channels), Deliver, channels)
  }

  /** A request whose two messages are answered, well or badly. */
  function Exchange(s: System, job: Job, ok1: bool, ok2: bool, channels: seq<nat>): System {
    Answered(Answered(Step(s, Ask(job), channels), ok1, channels), ok2, channels)
  }

  lemma {:induction false} RunOneMore(s: System, events: seq<Event>, e: Event, channels: seq<nat>)
    ensures Run(s, events + [e], channels) == Step(Run(s, events, channels), e, channels)
  {
    assert (events + [e])[..|events|] == events;
  }

  lemma {:induction false} ExchangeIsRun(s: System, job: Job, ok1: bool, ok2: bool, channels: seq<nat>)
    ensures Exchange(s, job, ok1, ok2, channels) ==
            Run(s, [] + [Ask(job)] + [Serve(ok1)] + [Deliver] + [Serve(ok2)] + [Deliver], channels)
  {
    var a := [] + [Ask(job)];
    var b := a + [Serve(ok1)] + [Deliver];
    RunOneMore(s, [], Ask(job), channels);
    RunOneMore(s, a, Serve(ok1), channels);
    RunOneMore(s, a + [Serve(ok1)], Deliver, channels);
    RunOneMore(s, b, Serve(ok2), channels);
    RunOneMore(s, b + [Serve(ok2)], Deliver, channels);
  }

  lemma {:induction false} GetAnswered(s: System, ok: bool, channels: seq<nat>)
    requires s.toServer == [GetConfig] && s.toClient == []
    ensures
      var (c, sends) := GetReplied(s.client, if ok then GotConfig(s.device) else GetFailed, channels);
      Answered(s, ok, channels) == s.(client := c, toServer := sends)
  {
    var served := Step(s, Serve(ok), channels);
    assert served.toServer == [] && |served.toClient| == 1;
  }

  lemma {:induction false} SetAnswered(s: System, cfg: Config, ok: bool, channels: seq<nat>)
    requires s.toServer == [SetConfig(cfg)] && s.toClient == []
    ensures Answered(s, ok, channels) ==
            s.(client := SetReplied(s.client, ok, channels), toServer := [], device := if ok then cfg else s.device)
  {
    var served := Step(s, Serve(ok), channels);
    assert served.toServer == [] && |served.toClient| == 1;
  }

  /** The device's channels include all that a gain request names; others are refused at once. */
  predicate Known(job: Job, channels: seq<nat>) {
    job.GainJob? ==> forall i :: 0 <= i < |job.values| ==> job.values[i].channel in channels
  }

  /** The update a request starts. */
  function Started(s: System, job: Job): Client {
    var c := if job.LoadJob? then s.client.(title := if job.entry.Some? then Loading else Clearing) else s.client;
    c.(updater := Some(Updater(c.accepted, job, None)), accepted := c.accepted + 1)
  }

  /** What handling the two replies comes to: the update ends if the first is bad; otherwise if the gains of the
      device's configuration can be read and the new one can be made, and then, unless the second reply is bad, if the
      callback does not raise and the gains of the new configuration can be read. */
  predicate Ends(c: Client, device: Config, job: Job, ok1: bool, ok2: bool, channels: seq<nat>)
    requires c.updater.Some?
  {
    !ok1 ||
    var (adopted, readable) := Adopted(c, device, channels);
    readable && job.Create(device, channels).Some? &&
    (!ok2 ||
     var made := job.Create(device, channels).value;
     var u := Updater(c.updater.value.id, job, Some(made));
     var (done, finished) := Completed(adopted.(updater := Some(u)), u, true);
     finished && Adopted(done, made, channels).1)
  }

  lemma {:induction false} StartsExchange(s: System, job: Job, channels: seq<nat>)
    requires Ready(s) && Known(job, channels)
    ensures Step(s, Ask(job), channels) == s.(client := Started(s, job), toServer := [GetConfig])
  {
  }

  lemma {:induction false} SecondAnswer(s: System, ok: bool, channels: seq<nat>)
    requires s.toClient == [] && s.client.updater.Some? && s.client.updater.value.dspConfig.Some?
    requires s.toServer == [SetConfig(s.client.updater.value.dspConfig.value)]
    ensures
      var u := s.client.updater.value;
      var (done, finished) := Completed(s.client, u, true);
      Answered(s, ok, channels).client.updater.None? <==>
      !ok || (finished && Adopted(done, u.dspConfig.value, channels).1)
  {
    SetAnswered(s, s.client.updater.value.dspConfig.value, ok, channels);
  }

  lemma {:induction false} ExchangeEnds(s: System, job: Job, ok1: bool, ok2: bool, channels: seq<nat>)
    requires Ready(s) && Known(job, channels)
    ensures Exchange(s, job, ok1, ok2, channels).client.updater.None? <==>
            Ends(Started(s, job), s.device, job, ok1, ok2, channels)
  {
    StartsExchange(s, job, channels);
    var asked := Step(s, Ask(job), channels);
    GetAnswered(asked, ok1, channels);
    var got := Answered(asked, ok1, channels);
    if got.toServer != [] { SecondAnswer(got, ok2, channels); }
  }

  // ---- when updates end ----

  lemma {:induction false} AdoptedIff(c: Client, cfg: Config, channels: seq<nat>)
    ensures Adopted(c, cfg, channels).1 <==> PipelineReads(cfg.Pipeline(), cfg.FilterMap())
  {
    ReadStagesIff(Initial(channels), cfg.Pipeline(), cfg.FilterMap());
  }

  /** A load or clear ends exactly if the server refuses to hand out its configuration, or every gain filter its
      pipeline names is there and has its values. */
  lemma {:induction false} LoadEndsIff(
      s: System, e: Option<Entry>, gain: real, ok1: bool, ok2: bool, channels: seq<nat>)
    requires Ready(s)
    ensures Exchange(s, LoadJob(e, gain), ok1, ok2, channels).client.updater.None? <==>
            !ok1 || PipelineReads(s.device.Pipeline(), s.device.FilterMap())
  {
    var job := LoadJob(e, gain);
    ExchangeEnds(s, job, ok1, ok2, channels);
    AdoptedIff(Started(s, job), s.device, channels);
    if PipelineReads(s.device.Pipeline(), s.device.FilterMap()) {
      LoadStaysReadable(e, s.device, channels, gain);
      var made := EntryConfig(e, s.device, channels, gain, false);
      var u := Updater(Started(s, job).updater.value.id, job, Some(made));
      AdoptedIff(Completed(Adopted(Started(s, job), s.device, channels).0.(updater := Some(u)), u, true).0, made,
          channels);
    }
  }

  /** What a gain update needs of the device's configuration and of the levels shown. */
  ghost predicate GainsFit(s: System, values: seq<Change>, ok2: bool) {
    var p, fs := s.device.Pipeline(), s.device.FilterMap();
    && PipelineReads(p, fs) && (values != [] ==> s.device.pipeline.Some?)
    && (ok2 ==>
        && (forall i :: 0 <= i < |values| ==> RequestReads(Get(fs, GainName(values[i].channel)), values[i]))
        && (p == [] ==> Found(s.client.levels, values)))
  }

  lemma {:induction false} AdoptedLevels(c: Client, device: Config, values: seq<Change>, channels: seq<nat>)
    requires PipelineReads(device.Pipeline(), device.FilterMap())
    requires forall i :: 0 <= i < |values| ==> values[i].channel in channels
    ensures Found(Adopted(c, device, channels).0.levels, values) <==>
        (device.Pipeline() == [] ==> Found(c.levels, values))
  {
    AdoptedIff(c, device, channels);
    if device.Pipeline() != [] {
      forall i | 0 <= i < |values|
        ensures HasLevel(Adopted(c, device, channels).0.levels, values[i].channel)
      {
        ChannelsShowLevels(device, channels, values[i].channel);
      }
    }
  }

  lemma {:induction false} MadeReadsIff(values: seq<Change>, device: Config)
    requires Distinct(Channels(values)) && GainsConfig(values, device).Some?
    requires PipelineReads(device.Pipeline(), device.FilterMap())
    ensures
      var made := GainsConfig(values, device).value;
      PipelineReads(made.Pipeline(), made.FilterMap()) <==>
      forall i :: 0 <= i < |values| ==> RequestReads(Get(device.FilterMap(), GainName(values[i].channel)), values[i])
  {
    var fs := ChangedFilters(device.FilterMap(), values);
    ChangedStaysReadable(device.Pipeline(), device.FilterMap(), values);
    ChangedReads(device.Pipeline(), values, fs);
    forall i | 0 <= i < |values|
      ensures OwnReads(values[i], fs) <==> RequestReads(Get(device.FilterMap(), GainName(values[i].channel)), values[i])
    {
      OwnReadsIff(device.FilterMap(), values, i);
    }
  }

  /** A gain update on the device's channels ends exactly if the server refuses to hand out its configuration; or every
      gain filter its pipeline names is there and has its values, and there is a pipeline to put the gains in; and,
      unless the server refuses the new configuration, each requested gain filter has, or is given, both its values,
      and, where the pipeline is empty, each channel shows a level already. */
  lemma {:induction false} GainEndsIff(s: System, values: seq<Change>, ok1: bool, ok2: bool, channels: seq<nat>)
    requires Ready(s) && Distinct(Channels(values)) && Known(GainJob(values), channels)
    ensures Exchange(s, GainJob(values), ok1, ok2, channels).client.updater.None? <==> !ok1 || GainsFit(s, values, ok2)
  {
    var job, c := GainJob(values), Started(s, GainJob(values));
    ExchangeEnds(s, job, ok1, ok2, channels);
    AdoptedIff(c, s.device, channels);
    if PipelineReads(s.device.Pipeline(), s.device.FilterMap()) && GainsConfig(values, s.device).Some? {
      GainCallback(s, values, channels);
    }
  }

  lemma {:induction false} GainCallback(s: System, values: seq<Change>, channels: seq<nat>)
    requires Distinct(Channels(values)) && Known(GainJob(values), channels) && GainsConfig(values, s.device).Some?
    requires PipelineReads(s.device.Pipeline(), s.device.FilterMap())
    ensures
      var c, made := Started(s, GainJob(values)), GainsConfig(values, s.device).value;
      var u := Updater(c.updater.value.id, GainJob(values), Some(made));
      var (done, finished) := Completed(Adopted(c, s.device, channels).0.(updater := Some(u)), u, true);
      finished && Adopted(done, made, channels).1 <==> GainsFit(s, values, true)
  {
    var c, made := Started(s, GainJob(values)), GainsConfig(values, s.device).value;
    var u := Updater(c.updater.value.id, GainJob(values), Some(made));
    var adopted := Adopted(c, s.device, channels).0;
    AdoptedLevels(c, s.device, values, channels);
    ShowGainsIff(adopted.levels, values);
    MadeReadsIff(values, s.device);
    AdoptedIff(Completed(adopted.(updater := Some(u)), u, true).0, made, channels);
  }

  // ---- what a callback shows ----

  predicate OneEach(levels: seq<Reading>) { forall i, j :: 0 <= i < j < |levels| ==> levels[i].id != levels[j].id }

  /** What a level becomes by one change. */
  predicate TakesChange(before: Reading, after: Reading, v: Change) {
    && after.id == before.id
    && after.gain == (if v.gain.Some? then Num(v.gain.value) else before.gain)
    && after.mute == (if v.mute.Some? then Flag(v.mute.value) else before.mute)
  }

  lemma {:induction false} FirstChangeShown(levels: seq<Reading>, v: Change, j: nat)
    requires OneEach(levels) && j < |levels|
    ensures
      var k := Find(levels, v.channel);
      k < |levels| ==>
        var after := levels[k := SetLevel(levels[k], v)];
        && OneEach(after)
        && if levels[j].id == v.channel then TakesChange(levels[j], after[j], v) else after[j] == levels[j]
  {
    FindIff(levels, v.channel);
  }

  lemma {:induction false} ChangesShown(levels: seq<Reading>, values: seq<Change>, j: nat)
    requires OneEach(levels) && Distinct(Channels(values)) && ShowGains(levels, values).1 && j < |levels|
    ensures |ShowGains(levels, values).0| == |levels|
    ensures (forall k :: 0 <= k < |values| ==> values[k].channel != levels[j].id) ==>
            ShowGains(levels, values).0[j] == levels[j]
    ensures forall k :: 0 <= k < |values| && values[k].channel == levels[j].id ==>
            TakesChange(levels[j], ShowGains(levels, values).0[j], values[k])
    decreases values
  {
    if values != [] {
      var v, rest := values[0], values[1..];
      DistinctRest(values);
      if v.gain.None? && v.mute.None? {
        ChangesShown(levels, rest, j);
      } else {
        var k := Find(levels, v.channel);
        var more := levels[k := SetLevel(levels[k], v)];
        FirstChangeShown(levels, v, j);
        ChangesShown(more, rest, j);
      }
    }
  }

  lemma {:induction false} DistinctRest(values: seq<Change>)
    requires values != [] && Distinct(Channels(values))
    ensures Distinct(Channels(values[1..]))
    ensures forall k :: 0 < k < |values| ==> values[k].channel != values[0].channel && values[1..][k - 1] == values[k]
  {
    var all, rest := Channels(values), Channels(values[1..]);
    assert forall k :: 0 <= k < |rest| ==> rest[k] == all[k + 1];
    assert forall k :: 0 <= k < |values| ==> values[k].channel == all[k];
    assert all[0] == values[0].channel;
  }

  /** A callback that went well shows, after a load or clear, every channel at its gain and open; after a change of
      gains, each channel asked for with what was asked for it and the others as they were. */
  lemma {:induction false} CallbackShows(c: Client, u: Updater, j: nat)
    requires OneEach(c.levels) && j < |c.levels| && Completed(c, u, true).1
    requires u.job.GainJob? ==> Distinct(Channels(u.job.values))
    ensures
      var before, after := c.levels[j], Completed(c, u, true).0.levels;
      && |after| == |c.levels|
      && match u.job
         case LoadJob(_, gain) => after[j] == Reading(before.id, Num(gain), Flag(false))
         case GainJob(values) =>
           && ((forall k :: 0 <= k < |values| ==> values[k].channel != before.id) ==> after[j] == before)
           && (forall k :: 0 <= k < |values| && values[k].channel == before.id ==>
                 TakesChange(before, after[j], values[k]))
  {
    if u.job.GainJob? { ChangesShown(c.levels, u.job.values, j); }
  }

  // ---- how updates end ----

  /** The first answer, if it is a good one and the configuration can be read, leads to the second message. */
  lemma {:induction false} FirstAnswer(s: System, job: Job, channels: seq<nat>)
    requires Ready(s) && Known(job, channels) && PipelineReads(s.device.Pipeline(), s.device.FilterMap())
    requires job.Create(s.device, channels).Some?
    ensures
      var got := Answered(Step(s, Ask(job), channels), true, channels);
      var made := job.Create(s.device, channels).value;
      && got.toServer == [SetConfig(made)] && got.toClient == [] && got.device == s.device
      && got.client == Adopted(Started(s, job), s.device, channels).0
                         .(updater := Some(Updater(Started(s, job).updater.value.id, job, Some(made))))
  {
    StartsExchange(s, job, channels);
    AdoptedIff(Started(s, job), s.device, channels);
    GetAnswered(Step(s, Ask(job), channels), true, channels);
  }

  /** With a good second answer the exchange is over. */
  lemma {:induction false} LastAnswer(s: System, job: Job, made: Config, channels: seq<nat>)
    requires Ready(s) && Known(job, channels) && PipelineReads(s.device.Pipeline(), s.device.FilterMap())
    requires job.Create(s.device, channels) == Some(made)
    ensures
      var c := Adopted(Started(s, job), s.device, channels).0;
      var waiting := c.(updater := Some(Updater(Started(s, job).updater.value.id, job, Some(made))));
      Exchange(s, job, true, true, channels) == System(SetReplied(waiting, true, channels), [], [], made)
  {
    FirstAnswer(s, job, channels);
    SetAnswered(Answered(Step(s, Ask(job), channels), true, channels), made, true, channels);
  }

  lemma {:induction false} SetReplyEnds(c: Client, u: Updater, made: Config, channels: seq<nat>)
    requires c.updater == Some(u) && u.dspConfig == Some(made) && Completed(c, u, true).1
    requires Adopted(Completed(c, u, true).0, made, channels).1
    ensures
      var r := SetReplied(c, true, channels);
      && r.updater.None? && r.config == made && r.title == Completed(c, u, true).0.title
      && (made.Pipeline() != [] ==> LevelsShown(made, channels) == Levels(r.levels))
  {
  }

  /** An update that is refused at once leaves the device as it was and shows the failure. */
  lemma {:induction false} RefusedLoadShowsError(
      s: System, e: Option<Entry>, gain: real, ok2: bool, channels: seq<nat>)
    requires Ready(s)
    ensures
      var r := Exchange(s, LoadJob(e, gain), false, ok2, channels);
      Ready(r) && r.device == s.device && r.client.title == Error && r.client.levels == s.client.levels
  {
    var job := LoadJob(e, gain);
    StartsExchange(s, job, channels);
    GetAnswered(Step(s, Ask(job), channels), false, channels);
  }

  /** So does one whose new configuration is refused. */
  lemma {:induction false} FailedLoadShowsError(s: System, e: Option<Entry>, gain: real, channels: seq<nat>)
    requires Ready(s) && PipelineReads(s.device.Pipeline(), s.device.FilterMap())
    ensures
      var r := Exchange(s, LoadJob(e, gain), true, false, channels);
      Ready(r) && r.device == s.device && r.client.title == Error
  {
    FirstAnswer(s, LoadJob(e, gain), channels);
    var got := Answered(Step(s, Ask(LoadJob(e, gain)), channels), true, channels);
    SetAnswered(got, got.client.updater.value.dspConfig.value, false, channels);
  }

  /** A load answered well ends with the entry's name and a device that holds its filters, a clear with "Empty" and a
      device whose ten filters are flat; the levels shown are those of the device's new configuration. */
  lemma {:induction false} LoadEndsWell(s: System, e: Option<Entry>, gain: real, channels: seq<nat>)
    requires Ready(s) && PipelineReads(s.device.Pipeline(), s.device.FilterMap())
    ensures
      var r := Exchange(s, LoadJob(e, gain), true, true, channels);
      && Ready(r) && r.device == EntryConfig(e, s.device, channels, gain, false) && r.client.config == r.device
      && (e.Some? ==> r.client.title == Named(e.value) && HoldsEntry(r.device, e.value))
      && (e.None? ==> r.client.title == Empty && HoldsNothing(r.device))
      && (r.device.Pipeline() != [] ==> LevelsShown(r.device, channels) == Levels(r.client.levels))
  {
    var job, made := LoadJob(e, gain), EntryConfig(e, s.device, channels, gain, false);
    LastAnswer(s, job, made, channels);
    var u := Updater(Started(s, job).updater.value.id, job, Some(made));
    var c := Adopted(Started(s, job), s.device, channels).0.(updater := Some(u));
    LoadStaysReadable(e, s.device, channels, gain);
    AdoptedIff(Completed(c, u, true).0, made, channels);
    SetReplyEnds(c, u, made, channels);
    LoadWritesEntry(e, s.device, channels, gain, false);
  }

  /** Each channel then shows the gain of the load and no mute, provided its chain names no other gain filter and its
      own, if it was there, is of type Gain. */
  lemma {:induction false} LoadShowsGain(s: System, e: Option<Entry>, gain: real, channels: seq<nat>, c: nat)
    requires Ready(s) && PipelineReads(s.device.Pipeline(), s.device.FilterMap()) && c in channels
    requires OnlyOwnGain(Chain(s.device.Pipeline(), c), GainName(c))
    requires GainName(c) in s.device.FilterMap() ==> s.device.FilterMap()[GainName(c)].kind == "Gain"
    ensures
      var shown := ReadingsOf(Exchange(s, LoadJob(e, gain), true, true, channels).client.levels, c);
      shown != [] && forall i :: 0 <= i < |shown| ==> shown[i] == Reading(c, Num(gain), Flag(false))
  {
    LoadEndsWell(s, e, gain, channels);
    LoadedGainIsLast(e, s.device, channels, gain, c);
    var made := EntryConfig(e, s.device, channels, gain, false);
    LastGainIsShown(Initial(channels), made.Pipeline(), made.FilterMap(), c);
  }

  lemma {:induction false} LoadedGainIsLast(e: Option<Entry>, base: Config, channels: seq<nat>, gain: real, c: nat)
    requires c in channels && OnlyOwnGain(Chain(base.Pipeline(), c), GainName(c))
    requires GainName(c) in base.FilterMap() ==> base.FilterMap()[GainName(c)].kind == "Gain"
    ensures
      var made := EntryConfig(e, base, channels, gain, false);
      && made.Pipeline() != []
      && var f := LastGain(Chain(made.Pipeline(), c), made.FilterMap());
         f.Some? && LevelsOf(f.value) == (Some(Num(gain)), Some(Flag(false)))
  {
    var made := EntryConfig(e, base, channels, gain, false);
    LoadedChainGains(base.Pipeline(), channels, |Padded(e)|, c);
    LoadedGain(e, base, channels, gain, false, c);
    GainedIsLast(Chain(made.Pipeline(), c), made.FilterMap(), c, Get(base.FilterMap(), GainName(c)), gain);
  }

  lemma {:induction false} GainedIsLast(chain: seq<string>, fs: FilterMap, c: nat, was: Option<Filter>, gain: real)
    requires OnlyOwnGain(chain, GainName(c)) && GainName(c) in chain && (was.Some? ==> was.value.kind == "Gain")
    requires Get(fs, GainName(c)) == Some(GainFilter(was, gain, false))
    ensures LastGain(chain, fs).Some?
        && LevelsOf(LastGain(chain, fs).value) == (Some(Num(gain)), Some(Flag(false)))
  {
    GainNamesCount(c);
    OwnGainIsLast(chain, fs, GainName(c));
  }

  lemma {:induction false} LoadedChainGains(base: seq<Stage>, channels: seq<nat>, n: nat, c: nat)
    requires c in channels && OnlyOwnGain(Chain(base, c), GainName(c))
    ensures
      var p := EntryPipeline(base, channels, BeqNames(n));
      OnlyOwnGain(Chain(p, c), GainName(c)) && GainName(c) in Chain(p, c) && p != []
  {
    LoadExtendsChains(base, channels, BeqNames(n), c);
    CarriesIffInChain(base, c, GainName(c));
    var added, p := Gained(base, channels, BeqNames(n), c), EntryPipeline(base, channels, BeqNames(n));
    forall name | name in Lacking(base, c, BeqNames(n))
      ensures !IsGainFilterName(name)
    {
      LackingAreNames(base, c, BeqNames(n), name);
      BeqNamesAreNoGains(n, name);
    }
    forall i | 0 <= i < |Chain(p, c)| && IsGainFilterName(Chain(p, c)[i])
      ensures Chain(p, c)[i] == GainName(c)
    {
      if i < |Chain(base, c)| {
        assert Chain(p, c)[i] == Chain(base, c)[i];
      } else {
        assert Chain(p, c)[i] == added[i - |Chain(base, c)|] && added[i - |Chain(base, c)|] in added;
      }
    }
    assert Chain([], c) == [];
  }

  /** A gain update answered well leaves the device with the changed configuration, whose levels are shown, and the
      title as it was. */
  lemma {:induction false} GainEndsWell(s: System, values: seq<Change>, channels: seq<nat>)
    requires Ready(s) && Distinct(Channels(values)) && Known(GainJob(values), channels) && GainsFit(s, values, true)
    ensures
      var r := Exchange(s, GainJob(values), true, true, channels);
      && Ready(r) && GainsConfig(values, s.device) == Some(r.device) && r.client.config == r.device
      && r.client.title == s.client.title
      && (r.device.Pipeline() != [] ==> LevelsShown(r.device, channels) == Levels(r.client.levels))
  {
    var job, made := GainJob(values), GainsConfig(values, s.device).value;
    LastAnswer(s, job, made, channels);
    var u := Updater(Started(s, job).updater.value.id, job, Some(made));
    var c := Adopted(Started(s, job), s.device, channels).0.(updater := Some(u));
    GainCallback(s, values, channels);
    SetReplyEnds(c, u, made, channels);
  }

  // ---- an update that never ends ----

  /** The pipeline names a gain filter that was removed from the filters. */
  const ORPHAN := Config(Some(map[]), Some([Filters([0], ["BEQ_Gain_0"], map[])]), map[])

  lemma {:induction false} OrphanDoesNotRead()
    ensures !PipelineReads(ORPHAN.Pipeline(), ORPHAN.FilterMap())
  {
    assert BEQ_PREFIX + "Gain" == "BEQ_Gain" && "BEQ_Gain" <= "BEQ_Gain_0";
    assert !NameReads([0], ORPHAN.Pipeline()[0].names[0], None);
    assert !StageReads(ORPHAN.Pipeline()[0], map[]);
  }

  /** On such a device any load stalls although every message is answered well, and so does everything after it, for
      ever: no message is sent, and no request taken, again. */
  lemma {:induction false} OrphanStallsForEver(
      s: System, e: Option<Entry>, gain: real, more: seq<Event>, channels: seq<nat>)
    requires Quiescent(s) && s.device == ORPHAN
    ensures
      var r := Run(Exchange(s, LoadJob(e, gain), true, true, channels), more, channels);
      r.client.updater.Some? && r.client.updater.value.job == LoadJob(e, gain)
      && r.toServer == [] && r.toClient == [] && r.device == ORPHAN
  {
    var job := LoadJob(e, gain);
    OrphanDoesNotRead();
    StartsExchange(s, job, channels);
    var asked := Step(s, Ask(job), channels);
    AdoptedIff(asked.client, ORPHAN, channels);
    GetAnswered(asked, true, channels);
    var events := [] + [Ask(job)] + [Serve(true)] + [Deliver] + [Serve(true)] + [Deliver];
    ExchangeIsRun(s, job, true, true, channels);
    var p := RunKeeps(s, events, channels);
    StalledForEver(Exchange(s, job, true, true, channels), more, channels);
  }
}
