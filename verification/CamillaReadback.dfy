/** The gains and mutes shown for a configuration, and when they are the ones last requested. */
module CamillaReadback {
  import opened Common
  import Text
  import opened CamillaConfig
  import opened CamillaTheorems
  import opened CamillaGains

  datatype Reading = Reading(id: int, gain: Value, mute: Value)

  function Initial(channels: seq<nat>): seq<Reading> {
    seq(|channels|, i requires 0 <= i < |channels| => Reading(channels[i], Num(0.0), Flag(false)))
  }

  /** The readings of one channel. */
  function ReadingsOf(rs: seq<Reading>, c: int): seq<Reading> {
    if rs == [] then [] else
    var n := |rs| - 1;
    ReadingsOf(rs[..n], c) + if rs[n].id == c then [rs[n]] else []
  }

  function Without(rs: seq<Reading>, channels: seq<int>): seq<Reading> {
    if rs == [] then [] else
    var n := |rs| - 1;
    Without(rs[..n], channels) + if rs[n].id in channels then [] else [rs[n]]
  }

  function Copies(channels: seq<int>, gain: Value, mute: Value): seq<Reading> {
    if channels == [] then [] else
    var n := |channels| - 1;
    Copies(channels[..n], gain, mute) + [Reading(channels[n], gain, mute)]
  }

  /** A gain filter with no gain or no mute. */
  predicate Unreadable(f: Filter) { "gain" !in f.parameters || "mute" !in f.parameters }

  /** One name of a stage; None is a KeyError, for a gain filter that does not exist or lacks its parameters. */
  function ReadName(rs: seq<Reading>, channels: seq<int>, name: string, fs: FilterMap): Option<seq<Reading>> {
    if !IsGainFilterName(name) then Some(rs)
    else if name !in fs then None
    else if fs[name].kind != "Gain" then Some(rs)
    else if channels == [] then Some(Without(rs, channels))
    else if Unreadable(fs[name]) then None
    else Some(Without(rs, channels) + Copies(channels, fs[name].parameters["gain"], fs[name].parameters["mute"]))
  }

  function ReadNames(rs: seq<Reading>, channels: seq<int>, names: seq<string>, fs: FilterMap): Option<seq<Reading>> {
    if names == [] then Some(rs) else
    var n := |names| - 1;
    match ReadNames(rs, channels, names[..n], fs)
    case None => None
    case Some(front) => ReadName(front, channels, names[n], fs)
  }

  function ReadStages(rs: seq<Reading>, pipeline: seq<Stage>, fs: FilterMap): Option<seq<Reading>> {
    if pipeline == [] then Some(rs) else
    var n := |pipeline| - 1;
    match ReadStages(rs, pipeline[..n], fs)
    case None => None
    case Some(front) => if pipeline[n].Filters? then ReadNames(front, pipeline[n].channels, pipeline[n].names, fs)
        else Some(front)
  }

  /** What the setter of the current configuration does to the levels shown. */
  datatype Shown = Unchanged | KeyError | Levels(rs: seq<Reading>)

  function LevelsShown(cfg: Config, channels: seq<nat>): Shown {
    if cfg.Pipeline() == [] then Unchanged else
    match ReadStages(Initial(channels), cfg.Pipeline(), cfg.FilterMap())
    case None => KeyError
    case Some(rs) => Levels(rs)
  }

  // ---- the loops of the setter ----

  method Keep(rs: seq<Reading>, channels: seq<int>) returns (r: seq<Reading>)
    ensures r == Without(rs, channels)
  {
    r := [];
    for i := 0 to |rs|
      invariant r == Without(rs[..i], channels)
    {
      assert rs[..i + 1][..i] == rs[..i];
      if rs[i].id !in channels { r := r + [rs[i]]; }
    }
    assert rs[..|rs|] == rs;
  }

  method AppendCopies(rs: seq<Reading>, channels: seq<int>, gain: Value, mute: Value) returns (r: seq<Reading>)
    ensures r == rs + Copies(channels, gain, mute)
  {
    r := rs;
    for i := 0 to |channels|
      invariant r == rs + Copies(channels[..i], gain, mute)
    {
      assert channels[..i + 1][..i] == channels[..i];
      r := r + [Reading(channels[i], gain, mute)];
    }
    assert channels[..|channels|] == channels;
  }

  method ScanNames(
      rs: seq<Reading>, channels: seq<int>, names: seq<string>, fs: FilterMap) returns (r: Option<seq<Reading>>)
    ensures r == ReadNames(rs, channels, names, fs)
  {
    var levels := rs;
    for i := 0 to |names|
      invariant ReadNames(rs, channels, names[..i], fs) == Some(levels)
    {
      assert names[..i + 1][..i] == names[..i];
      ReadNamesFails(rs, channels, names, i + 1, fs);
      if IsGainFilterName(names[i]) {
        if names[i] !in fs { return None; }
        var f := fs[names[i]];
        if f.kind == "Gain" {
          if channels != [] && Unreadable(f) { return None; }
          levels := Keep(levels, channels);
          if channels != [] {
            levels := AppendCopies(levels, channels, f.parameters["gain"], f.parameters["mute"]);
          }
        }
      }
    }
    assert names[..|names|] == names;
    return Some(levels);
  }

  lemma {:induction false} ReadNamesFails(
      rs: seq<Reading>, channels: seq<int>, names: seq<string>, i: nat, fs: FilterMap)
    requires i <= |names|
    ensures ReadNames(rs, channels, names[..i], fs).None? ==> ReadNames(rs, channels, names, fs).None?
    decreases |names|
  {
    if i == |names| {
      assert names[..i] == names;
    } else {
      var n := |names| - 1;
      assert names[..n][..i] == names[..i];
      ReadNamesFails(rs, channels, names[..n], i, fs);
    }
  }

  lemma {:induction false} ReadStagesFails(rs: seq<Reading>, p: seq<Stage>, i: nat, fs: FilterMap)
    requires i <= |p|
    ensures ReadStages(rs, p[..i], fs).None? ==> ReadStages(rs, p, fs).None?
    decreases |p|
  {
    if i == |p| {
      assert p[..i] == p;
    } else {
      var n := |p| - 1;
      assert p[..n][..i] == p[..i];
      ReadStagesFails(rs, p[..n], i, fs);
    }
  }

  method ShowLevels(cfg: Config, channels: seq<nat>) returns (shown: Shown)
    ensures shown == LevelsShown(cfg, channels)
  {
    var pipeline, fs := cfg.Pipeline(), cfg.FilterMap();
    if pipeline == [] { return Unchanged; }
    var levels := Initial(channels);
    for i := 0 to |pipeline|
      invariant ReadStages(Initial(channels), pipeline[..i], fs) == Some(levels)
    {
      assert pipeline[..i + 1][..i] == pipeline[..i];
      ReadStagesFails(Initial(channels), pipeline, i + 1, fs);
      if pipeline[i].Filters? {
        var read := ScanNames(levels, pipeline[i].channels, pipeline[i].names, fs);
        if read.None? { return KeyError; }
        levels := read.value;
      }
    }
    assert pipeline[..|pipeline|] == pipeline;
    return Levels(levels);
  }

  // ---- what is shown ----

  /** The last filter of a chain that counts as its gain. */
  function LastGain(chain: seq<string>, fs: FilterMap): Option<Filter> {
    if chain == [] then None else
    var n := |chain| - 1;
    if IsGainFilterName(chain[n]) && chain[n] in fs && fs[chain[n]].kind == "Gain" then Some(fs[chain[n]])
    else LastGain(chain[..n], fs)
  }

  /** A channel shows one filter's gain and mute, and nothing else. */
  ghost predicate Shows(rs: seq<Reading>, c: int, f: Filter) {
    && !Unreadable(f) && ReadingsOf(rs, c) != []
    && (forall i :: 0 <= i < |ReadingsOf(rs, c)| ==>
        ReadingsOf(rs, c)[i] == Reading(c, f.parameters["gain"], f.parameters["mute"]))
  }

  /** What a channel shows after a read: its last gain if it has one, otherwise what it showed before. */
  ghost predicate ShowsLast(before: seq<Reading>, after: seq<Reading>, c: int, chain: seq<string>, fs: FilterMap) {
    match LastGain(chain, fs)
    case Some(f) => Shows(after, c, f)
    case None => ReadingsOf(after, c) == ReadingsOf(before, c)
  }

  lemma {:induction false} ReadingsOfAppend(a: seq<Reading>, b: seq<Reading>, c: int)
    ensures ReadingsOf(a + b, c) == ReadingsOf(a, c) + ReadingsOf(b, c)
  {
    if b == [] {
      EmptyLast(a);
      EmptyLast(ReadingsOf(a, c));
    } else {
      var n := |b| - 1;
      assert (a + b)[..|a| + n] == a + b[..n];
      ReadingsOfAppend(a, b[..n], c);
      Regroup(ReadingsOf(a, c), ReadingsOf(b[..n], c), if b[n].id == c then [b[n]] else []);
    }
  }

  lemma {:induction false} WithoutOthers(rs: seq<Reading>, channels: seq<int>, c: int)
    ensures ReadingsOf(Without(rs, channels), c) == if c in channels then [] else ReadingsOf(rs, c)
  {
    if rs != [] {
      var n := |rs| - 1;
      WithoutOthers(rs[..n], channels, c);
      ReadingsOfAppend(Without(rs[..n], channels), if rs[n].id in channels then [] else [rs[n]], c);
      OneReading(rs[n], c);
    }
  }

  lemma {:induction false} OneReading(r: Reading, c: int)
    ensures ReadingsOf([], c) == []
    ensures ReadingsOf([r], c) == if r.id == c then [r] else []
  {
    assert [r][..0] == [];
  }

  lemma {:induction false} CopiesShow(channels: seq<int>, gain: Value, mute: Value, c: int)
    ensures
      var r := ReadingsOf(Copies(channels, gain, mute), c);
      (r != [] <==> c in channels) && forall i :: 0 <= i < |r| ==> r[i] == Reading(c, gain, mute)
  {
    if channels != [] {
      var n := |channels| - 1;
      CopiesShow(channels[..n], gain, mute, c);
      ReadingsOfAppend(Copies(channels[..n], gain, mute), [Reading(channels[n], gain, mute)], c);
      OneReading(Reading(channels[n], gain, mute), c);
      assert channels == channels[..n] + [channels[n]];
    }
  }

  lemma {:induction false} ReadNameShows(rs: seq<Reading>, channels: seq<int>, name: string, fs: FilterMap, c: int)
    requires ReadName(rs, channels, name, fs).Some?
    ensures
      var after := ReadName(rs, channels, name, fs).value;
      if c in channels && IsGainFilterName(name) && fs[name].kind == "Gain" then Shows(after, c, fs[name])
      else ReadingsOf(after, c) == ReadingsOf(rs, c)
  {
    WithoutOthers(rs, channels, c);
    if channels != [] && IsGainFilterName(name) && fs[name].kind == "Gain" {
      var gain, mute := fs[name].parameters["gain"], fs[name].parameters["mute"];
      CopiesShow(channels, gain, mute, c);
      ReadingsOfAppend(Without(rs, channels), Copies(channels, gain, mute), c);
    }
  }

  lemma {:induction false} LastGainStep(chain: seq<string>, name: string, fs: FilterMap)
    ensures LastGain(chain + [name], fs) ==
            if IsGainFilterName(name) && name in fs && fs[name].kind == "Gain" then Some(fs[name])
                else LastGain(chain, fs)
  {
    assert (chain + [name])[..|chain|] == chain;
  }

  lemma {:induction false} ReadNamesShows(
      start: seq<Reading>, rs: seq<Reading>, channels: seq<int>, names: seq<string>, fs: FilterMap,
                                          c: int, chain: seq<string>)
    requires ReadNames(rs, channels, names, fs).Some? && ShowsLast(start, rs, c, chain, fs)
    ensures ShowsLast(start, ReadNames(rs, channels, names, fs).value, c,
        chain + (if c in channels then names else []), fs)
  {
    if names == [] {
      EmptyLast(chain);
    } else {
      var n := |names| - 1;
      var front := ReadNames(rs, channels, names[..n], fs).value;
      ReadNamesShows(start, rs, channels, names[..n], fs, c, chain);
      ReadNameShows(front, channels, names[n], fs, c);
      if c in channels {
        LastGainStep(chain + names[..n], names[n], fs);
        assert chain + names == chain + names[..n] + [names[n]];
      }
    }
  }

  /** Each channel shows the gain and mute of the last gain filter of its chain, or its default when it has none. */
  lemma {:induction false} LastGainIsShown(start: seq<Reading>, p: seq<Stage>, fs: FilterMap, c: int)
    requires ReadStages(start, p, fs).Some?
    ensures ShowsLast(start, ReadStages(start, p, fs).value, c, Chain(p, c), fs)
  {
    if p != [] {
      var n := |p| - 1;
      LastGainIsShown(start, p[..n], fs, c);
      var front := ReadStages(start, p[..n], fs).value;
      if p[n].Filters? {
        ReadNamesShows(start, front, p[n].channels, p[n].names, fs, c, Chain(p[..n], c));
      } else {
        EmptyLast(Chain(p[..n], c));
      }
    }
  }

  // ---- when a configuration can be read ----

  /** A gain filter named in a stage exists, and has its parameters if the stage has channels to show them on. */
  predicate NameReads(channels: seq<int>, name: string, f: Option<Filter>) {
    IsGainFilterName(name) ==> f.Some? && (f.value.kind == "Gain" && channels != [] ==> !Unreadable(f.value))
  }

  predicate StageReads(s: Stage, fs: FilterMap) {
    s.Filters? ==> forall i :: 0 <= i < |s.names| ==> NameReads(s.channels, s.names[i], Get(fs, s.names[i]))
  }

  predicate PipelineReads(p: seq<Stage>, fs: FilterMap) { forall k :: 0 <= k < |p| ==> StageReads(p[k], fs) }

  lemma {:induction false} ReadNamesIff(rs: seq<Reading>, channels: seq<int>, names: seq<string>, fs: FilterMap)
    ensures ReadNames(rs, channels, names, fs).Some? <==>
            forall i :: 0 <= i < |names| ==> NameReads(channels, names[i], Get(fs, names[i]))
  {
    if names != [] {
      var n := |names| - 1;
      ReadNamesIff(rs, channels, names[..n], fs);
      assert names == names[..n] + [names[n]];
    }
  }

  lemma {:induction false} ReadStagesIff(rs: seq<Reading>, p: seq<Stage>, fs: FilterMap)
    ensures ReadStages(rs, p, fs).Some? <==> PipelineReads(p, fs)
  {
    if p != [] {
      var n := |p| - 1;
      ReadStagesIff(rs, p[..n], fs);
      assert p == p[..n] + [p[n]];
      if ReadStages(rs, p[..n], fs).Some? && p[n].Filters? {
        ReadNamesIff(ReadStages(rs, p[..n], fs).value, p[n].channels, p[n].names, fs);
      }
    }
  }

  /** A requested gain filter that is of type Gain has, or is given, both its parameters. */
  predicate RequestReads(was: Option<Filter>, v: Change) {
    was.Some? && was.value.kind == "Gain" ==>
      (v.gain.Some? || "gain" in was.value.parameters) && (v.mute.Some? || "mute" in was.value.parameters)
  }

  /** What the setter needs of a configuration before gains are set. */
  ghost predicate CanBeRead(values: seq<Change>, base: Config) {
    && (values != [] || base.Pipeline() != [])
    && PipelineReads(base.Pipeline(), ChangedFilters(base.FilterMap(), values))
    && (forall i :: 0 <= i < |values| ==> RequestReads(Get(base.FilterMap(), GainName(values[i].channel)), values[i]))
  }

  lemma {:induction false} WithGainReads(p: seq<Stage>, ch: nat, name: string, fs: FilterMap)
    ensures PipelineReads(WithGain(p, ch, name), fs) <==> PipelineReads(p, fs) && NameReads([ch], name, Get(fs, name))
    ensures WithGain(p, ch, name) != []
  {
    var k, q := Own(p, ch), WithGain(p, ch, name);
    if k < |p| {
      InsertedReads(p[k], name, fs);
      ReplacedReads(p, k, q[k], fs);
    } else {
      var s := Filters([ch], [name], map[]);
      assert StageReads(s, fs) <==> NameReads([ch], s.names[0], Get(fs, s.names[0]));
      AppendedReads(p, s, fs);
    }
  }

  lemma {:induction false} AppendedReads(p: seq<Stage>, s: Stage, fs: FilterMap)
    ensures PipelineReads(p + [s], fs) <==> PipelineReads(p, fs) && StageReads(s, fs)
  {
    var q := p + [s];
    if PipelineReads(q, fs) {
      assert StageReads(q[|p|], fs);
      forall i | 0 <= i < |p|
        ensures StageReads(p[i], fs)
      {
        assert StageReads(q[i], fs);
      }
    }
  }

  lemma {:induction false} ReplacedReads(p: seq<Stage>, k: nat, s: Stage, fs: FilterMap)
    requires k < |p| && (StageReads(s, fs) ==> StageReads(p[k], fs))
    ensures PipelineReads(p[k := s], fs) <==> PipelineReads(p, fs) && StageReads(s, fs)
  {
    var q := p[k := s];
    if PipelineReads(q, fs) {
      assert StageReads(q[k], fs);
      forall i | 0 <= i < |p|
        ensures StageReads(p[i], fs)
      {
        assert StageReads(q[i], fs);
      }
    }
  }

  lemma {:induction false} InsertedReads(s: Stage, name: string, fs: FilterMap)
    requires s.Filters?
    ensures StageReads(s.(names := InsertGain(s.names, name)), fs) <==>
            StageReads(s, fs) && NameReads(s.channels, name, Get(fs, name))
  {
    var k, t := FirstBeq(s.names), s.(names := InsertGain(s.names, name));
    if name in s.names {
      assert StageReads(s, fs) ==> forall i :: 0 <= i < |s.names| && s.names[i] == name ==>
          NameReads(s.channels, name, Get(fs, name));
    } else if StageReads(t, fs) {
      assert NameReads(t.channels, t.names[k], Get(fs, t.names[k]));
      forall i | 0 <= i < |s.names|
        ensures NameReads(s.channels, s.names[i], Get(fs, s.names[i]))
      {
        var j := if i < k then i else i + 1;
        assert NameReads(t.channels, t.names[j], Get(fs, t.names[j]));
      }
    }
  }

  predicate OwnReads(v: Change, fs: FilterMap) {
    NameReads([v.channel], GainName(v.channel), Get(fs, GainName(v.channel)))
  }

  lemma {:induction false} OwnReadsIff(fs: FilterMap, values: seq<Change>, i: nat)
    requires Distinct(Channels(values)) && i < |values|
    ensures OwnReads(values[i], ChangedFilters(fs, values)) <==>
            RequestReads(Get(fs, GainName(values[i].channel)), values[i])
  {
    ChangedFilterAt(fs, values, GainName(values[i].channel));
    GainNamesCount(values[i].channel);
  }

  lemma {:induction false} ChangedReads(p: seq<Stage>, values: seq<Change>, fs: FilterMap)
    ensures PipelineReads(ChangedPipeline(p, values), fs) <==>
            PipelineReads(p, fs)
            && forall i :: 0 <= i < |values| ==> OwnReads(values[i], fs)
    ensures ChangedPipeline(p, values) == [] <==> values == [] && p == []
  {
    if values != [] {
      var n := |values| - 1;
      ChangedReads(p, values[..n], fs);
      assert values == values[..n] + [values[n]];
      WithGainReads(ChangedPipeline(p, values[..n]), values[n].channel, GainName(values[n].channel), fs);
    }
  }

  /** Once gains are set, the setter can show levels exactly if the base pipeline could be read with the requested
      filters in place and each of these has its parameters. */
  lemma {:induction false} CanBeReadIff(values: seq<Change>, base: Config, channels: seq<nat>)
    requires Distinct(Channels(values)) && base.pipeline.Some?
    ensures LevelsShown(GainsConfig(values, base).value, channels).Levels? <==> CanBeRead(values, base)
  {
    var fs := ChangedFilters(base.FilterMap(), values);
    ChangedReads(base.Pipeline(), values, fs);
    ReadStagesIff(Initial(channels), ChangedPipeline(base.Pipeline(), values), fs);
    forall i | 0 <= i < |values|
      ensures OwnReads(values[i], fs) <==> RequestReads(Get(base.FilterMap(), GainName(values[i].channel)), values[i])
    {
      OwnReadsIff(base.FilterMap(), values, i);
    }
  }

  // ---- requests read back ----

  /** No filter of a chain counts as a gain but the channel's own. */
  ghost predicate OnlyOwnGain(chain: seq<string>, own: string) {
    forall i :: 0 <= i < |chain| && IsGainFilterName(chain[i]) ==> chain[i] == own
  }

  lemma {:induction false} OwnGainIsLast(chain: seq<string>, fs: FilterMap, own: string)
    requires OnlyOwnGain(chain, own) && own in chain && IsGainFilterName(own) && own in fs && fs[own].kind == "Gain"
    ensures LastGain(chain, fs) == Some(fs[own])
  {
    var n := |chain| - 1;
    if !IsGainFilterName(chain[n]) {
      assert chain == chain[..n] + [chain[n]];
      OwnGainIsLast(chain[..n], fs, own);
    }
  }

  lemma {:induction false} InsertedOwn(s: seq<string>, t: seq<string>, own: string)
    requires OnlyOwnGain(s, own) && (t == s || Inserted(s, t, own))
    ensures OnlyOwnGain(t, own)
  {
    if t != s {
      var k :| 0 <= k <= |s| && t == s[..k] + [own] + s[k..];
      forall i | 0 <= i < |t| && IsGainFilterName(t[i])
        ensures t[i] == own
      {
        if i != k { assert t[i] == s[if i < k then i else i - 1]; }
      }
    }
  }

  /** A gain and mute that a change asks for, or keeps. */
  function Requested(v: Change, was: Option<Filter>): (Option<Value>, Option<Value>) {
    var r := ChangedFilter(was, v).parameters;
    (if v.gain.Some? then Some(Num(v.gain.value)) else Get(r, "gain"),
     if v.mute.Some? then Some(Flag(v.mute.value)) else Get(r, "mute"))
  }

  function LevelsOf(f: Filter): (Option<Value>, Option<Value>) {
    (Get(f.parameters, "gain"), Get(f.parameters, "mute"))
  }

  predicate ShowRequest(shown: seq<Reading>, wanted: (Option<Value>, Option<Value>)) {
    shown != [] && forall i :: 0 <= i < |shown| ==> (Some(shown[i].gain), Some(shown[i].mute)) == wanted
  }

  /** What a channel shows once gains have been set. */
  function ShownAfter(values: seq<Change>, base: Config, channels: seq<nat>, c: nat): seq<Reading>
    requires base.pipeline.Some? && LevelsShown(GainsConfig(values, base).value, channels).Levels?
  {
    ReadingsOf(LevelsShown(GainsConfig(values, base).value, channels).rs, c)
  }

  /** The filter that counts last in a channel's chain has the levels wanted; without one, the channel is one of the
      device's and the levels wanted are the default. */
  ghost predicate EndsWithRequest(
      p: seq<Stage>, fs: FilterMap, channels: seq<nat>, c: nat, wanted: (Option<Value>, Option<Value>))
  {
    match LastGain(Chain(p, c), fs)
    case Some(f) => LevelsOf(f) == wanted
    case None => c in channels && wanted == (Some(Num(0.0)), Some(Flag(false)))
  }

  lemma {:induction false} InitialShows(channels: seq<nat>, c: nat)
    ensures var r := ReadingsOf(Initial(channels), c);
      (r != [] <==> c in channels) && forall i :: 0 <= i < |r| ==> r[i] == Reading(c, Num(0.0), Flag(false))
    decreases |channels|
  {
    if channels != [] {
      var n := |channels| - 1;
      assert Initial(channels)[..n] == Initial(channels[..n]);
      InitialShows(channels[..n], c);
      assert channels == channels[..n] + [channels[n]];
    }
  }

  lemma {:induction false} ShownIff(
      p: seq<Stage>, fs: FilterMap, channels: seq<nat>, c: nat, wanted: (Option<Value>, Option<Value>))
    requires ReadStages(Initial(channels), p, fs).Some?
    ensures ShowRequest(ReadingsOf(ReadStages(Initial(channels), p, fs).value, c), wanted) <==>
            EndsWithRequest(p, fs, channels, c, wanted)
  {
    LastGainIsShown(Initial(channels), p, fs, c);
    InitialShows(channels, c);
    var shown := ReadingsOf(ReadStages(Initial(channels), p, fs).value, c);
    if shown != [] { assert shown[0] in shown; }
  }

  /** The same in terms of the configuration made: its last filter that counts as a gain has just these levels. */
  lemma {:induction false} RequestEndsChain(values: seq<Change>, base: Config, channels: seq<nat>, k: nat)
    requires k < |values| && base.pipeline.Some? && CanBeRead(values, base)
    requires Distinct(Channels(values))
    ensures LevelsShown(GainsConfig(values, base).value, channels).Levels?
    ensures
      var v := values[k];
      var wanted := Requested(v, Get(base.FilterMap(), GainName(v.channel)));
      ShowRequest(ShownAfter(values, base, channels, v.channel), wanted) <==>
      EndsWithRequest(ChangedPipeline(base.Pipeline(), values), ChangedFilters(base.FilterMap(), values), channels,
                      v.channel, wanted)
  {
    CanBeReadIff(values, base, channels);
    var v := values[k];
    ShownIff(ChangedPipeline(base.Pipeline(), values), ChangedFilters(base.FilterMap(), values), channels, v.channel,
             Requested(v, Get(base.FilterMap(), GainName(v.channel))));
  }

  // ---- the condition before the call ----

  /** The filter a request makes of the one there is under a name. */
  function FilterThen(was: Option<Filter>, values: seq<Change>, name: string): Option<Filter> {
    if values == [] then was else
    var v := values[|values| - 1];
    if name == GainName(v.channel) then Some(ChangedFilter(was, v)) else FilterThen(was, values[..|values| - 1], name)
  }

  /** The last of some names that will count as a gain. */
  function LastThen(names: seq<string>, fs: FilterMap, values: seq<Change>): Option<Filter> {
    if names == [] then None else
    var n := |names| - 1;
    var f := FilterThen(Get(fs, names[n]), values, names[n]);
    if IsGainFilterName(names[n]) && f.Some? && f.value.kind == "Gain" then f else LastThen(names[..n], fs, values)
  }

  /** A requested channel will show what it asks for. If its own stage lists its gain, the last name of its chain that
      will count as a gain decides. Otherwise the gain goes in between two parts of its chain: the last name of the
      part behind that counts decides; then its own gain, which counts when it is new or of type Gain, and has the
      levels wanted; then the part ahead. Where nothing counts, the default is shown. */
  predicate WillShow(values: seq<Change>, base: Config, channels: seq<nat>, v: Change) {
    var fs, p, c := base.FilterMap(), base.Pipeline(), v.channel;
    var was := Get(fs, GainName(c));
    var wanted := Requested(v, was);
    var asDefault := c in channels && wanted == (Some(Num(0.0)), Some(Flag(false)));
    if Own(p, c) < |p| && GainName(c) in p[Own(p, c)].names then
      match LastThen(Chain(p, c), fs, values)
      case Some(f) => LevelsOf(f) == wanted
      case None => asDefault
    else
      match LastThen(Behind(p, c), fs, values)
      case Some(f) => LevelsOf(f) == wanted
      case None =>
        if was.None? || was.value.kind == "Gain" then true
        else
          match LastThen(Ahead(p, c), fs, values)
          case Some(f) => LevelsOf(f) == wanted
          case None => asDefault
  }

  lemma {:induction false} FilterThenIs(fs: FilterMap, values: seq<Change>, name: string)
    requires Distinct(Channels(values))
    ensures FilterThen(Get(fs, name), values, name) == Get(ChangedFilters(fs, values), name)
  {
    if values != [] {
      var n := |values| - 1;
      assert Channels(values[..n]) == Channels(values)[..n];
      FilterThenIs(fs, values[..n], name);
      ChangedFilterAt(fs, values, name);
    }
  }

  lemma {:induction false} LastThenIs(names: seq<string>, fs: FilterMap, values: seq<Change>)
    requires Distinct(Channels(values))
    ensures LastThen(names, fs, values) == LastGain(names, ChangedFilters(fs, values))
  {
    if names != [] {
      FilterThenIs(fs, values, names[|names| - 1]);
      LastThenIs(names[..|names| - 1], fs, values);
    }
  }

  lemma {:induction false} LastGainAppend(a: seq<string>, b: seq<string>, fs: FilterMap)
    ensures LastGain(a + b, fs) == if LastGain(b, fs).Some? then LastGain(b, fs) else LastGain(a, fs)
  {
    if b == [] {
      EmptyLast(a);
    } else {
      var n := |b| - 1;
      assert a + b == a + b[..n] + [b[n]] && b == b[..n] + [b[n]];
      LastGainStep(a + b[..n], b[n], fs);
      LastGainStep(b[..n], b[n], fs);
      LastGainAppend(a, b[..n], fs);
    }
  }

  lemma {:induction false} LastGainAround(a: seq<string>, own: string, b: seq<string>, fs: FilterMap)
    requires IsGainFilterName(own) && own in fs
    ensures LastGain(a + [own] + b, fs) ==
            if LastGain(b, fs).Some? then LastGain(b, fs)
            else if fs[own].kind == "Gain" then Some(fs[own])
            else LastGain(a, fs)
  {
    LastGainAppend(a + [own], b, fs);
    LastGainStep(a, own, fs);
  }

  lemma {:induction false} OwnFilterAsked(base: Config, values: seq<Change>, k: nat)
    requires Distinct(Channels(values)) && k < |values|
    ensures
      var v := values[k];
      var was := Get(base.FilterMap(), GainName(v.channel));
      && Get(ChangedFilters(base.FilterMap(), values), GainName(v.channel)) == Some(ChangedFilter(was, v))
      && LevelsOf(ChangedFilter(was, v)) == Requested(v, was)
      && (ChangedFilter(was, v).kind == "Gain" <==> was.None? || was.value.kind == "Gain")
      && v.channel in Channels(values) && IsGainFilterName(GainName(v.channel))
  {
    ChangedFilterAt(base.FilterMap(), values, GainName(values[k].channel));
    GainNamesCount(values[k].channel);
    assert Channels(values)[k] == values[k].channel;
  }

  lemma {:induction false} EndsIffWillShow(values: seq<Change>, base: Config, channels: seq<nat>, k: nat)
    requires Distinct(Channels(values)) && k < |values|
    ensures
      var v := values[k];
      EndsWithRequest(ChangedPipeline(base.Pipeline(), values), ChangedFilters(base.FilterMap(), values), channels,
                      v.channel, Requested(v, Get(base.FilterMap(), GainName(v.channel)))) <==>
      WillShow(values, base, channels, v)
  {
    var c, p, fs := values[k].channel, base.Pipeline(), base.FilterMap();
    OwnFilterAsked(base, values, k);
    ChangedChain(p, values, c);
    if OwnHasGain(p, c) {
      LastThenIs(Chain(p, c), fs, values);
    } else {
      ChangedChainSplits(p, values, c);
      LastGainAround(Ahead(p, c), GainName(c), Behind(p, c), ChangedFilters(fs, values));
      LastThenIs(Behind(p, c), fs, values);
      LastThenIs(Ahead(p, c), fs, values);
    }
  }

  /** When gains have been set on a configuration that can then be read, a requested channel shows what was asked for
      exactly in the cases WillShow names, which are about the configuration before and the request. */
  lemma {:induction false} RequestedLevelsAreShownIff(values: seq<Change>, base: Config, channels: seq<nat>, k: nat)
    requires k < |values| && base.pipeline.Some? && CanBeRead(values, base)
    requires Distinct(Channels(values))
    ensures LevelsShown(GainsConfig(values, base).value, channels).Levels?
    ensures
      var v := values[k];
      ShowRequest(ShownAfter(values, base, channels, v.channel),
                  Requested(v, Get(base.FilterMap(), GainName(v.channel)))) <==>
      WillShow(values, base, channels, v)
  {
    RequestEndsChain(values, base, channels, k);
    EndsIffWillShow(values, base, channels, k);
  }

  /** So it does when no other gain filter is in its chain and its own, if it existed, is of type Gain. */
  lemma {:induction false} RequestedLevelsAreShown(values: seq<Change>, base: Config, channels: seq<nat>, k: nat)
    requires Distinct(Channels(values)) && k < |values| && base.pipeline.Some? && CanBeRead(values, base)
    requires
      var own := GainName(values[k].channel);
      && OnlyOwnGain(Chain(base.Pipeline(), values[k].channel), own)
      && (own in base.FilterMap() ==> base.FilterMap()[own].kind == "Gain")
    ensures LevelsShown(GainsConfig(values, base).value, channels).Levels?
    ensures
      var v := values[k];
      ShowRequest(ShownAfter(values, base, channels, v.channel),
          Requested(v, Get(base.FilterMap(), GainName(v.channel))))
  {
    RequestEndsChain(values, base, channels, k);
    OwnRequestIsLast(values, base, k);
  }

  /** The own gain of a requested channel then counts last, with the levels wanted. */
  lemma {:induction false} OwnRequestIsLast(values: seq<Change>, base: Config, k: nat)
    requires Distinct(Channels(values)) && k < |values|
    requires
      var own := GainName(values[k].channel);
      && OnlyOwnGain(Chain(base.Pipeline(), values[k].channel), own)
      && (own in base.FilterMap() ==> base.FilterMap()[own].kind == "Gain")
    ensures
      var v := values[k];
      var was := Get(base.FilterMap(), GainName(v.channel));
      && LevelsOf(ChangedFilter(was, v)) == Requested(v, was)
      && LastGain(Chain(ChangedPipeline(base.Pipeline(), values), v.channel),
          ChangedFilters(base.FilterMap(), values)) ==
         Some(ChangedFilter(was, v))
  {
    var v, own := values[k], GainName(values[k].channel);
    var fs, p := ChangedFilters(base.FilterMap(), values), ChangedPipeline(base.Pipeline(), values);
    assert v.channel in Channels(values) by { assert Channels(values)[k] == v.channel; }
    ChangedFilterAt(base.FilterMap(), values, own);
    ChangedChain(base.Pipeline(), values, v.channel);
    InsertedOwn(Chain(base.Pipeline(), v.channel), Chain(p, v.channel), own);
    OwnInChain(p, v.channel, own);
    GainNamesCount(v.channel);
    OwnGainIsLast(Chain(p, v.channel), fs, own);
  }

  lemma {:induction false} OwnInChain(p: seq<Stage>, ch: nat, name: string)
    requires OwnHas(p, ch, name)
    ensures name in Chain(p, ch)
  {
    assert CarriedBy(p[Own(p, ch)], ch, name);
    CarriesIffInChain(p, ch, name);
  }

  lemma {:induction false} GainNamesCount(c: nat)
    ensures IsGainFilterName(GainName(c))
  {
    assert GAIN_PREFIX[..4] == "Gain";
    DropPrefix(BEQ_PREFIX, GAIN_PREFIX + Text.Decimal(c));
    assert GainName(c)[..8] == BEQ_PREFIX + "Gain";
  }

  // ---- which names count ----

  /** The one filter of a pipeline is shown on its channel exactly if it is of type Gain and its name starts with
      BEQ_Gain, whatever comes after that. */
  lemma {:induction false} NamesThatCount(name: string, f: Filter, c: nat)
    requires !Unreadable(f)
    ensures
      var cfg := Config(Some(map[name := f]), Some([Filters([c], [name], map[])]), map[]);
      LevelsShown(cfg, [c]) ==
      Levels([if "BEQ_Gain" <= name && f.kind == "Gain" then Reading(c, f.parameters["gain"], f.parameters["mute"])
              else Reading(c, Num(0.0), Flag(false))])
  {
    var fs, stage, start := map[name := f], Filters([c], [name], map[]), Initial([c]);
    assert BEQ_PREFIX + "Gain" == "BEQ_Gain";
    assert start == [Reading(c, Num(0.0), Flag(false))];
    OneCopy(c, f.parameters["gain"], f.parameters["mute"]);
    var read := ReadName(start, [c], name, fs);
    assert ReadNames(start, [c], [name], fs) == read by { assert [name][..0] == []; }
    assert ReadStages(start, [stage], fs) == read by { assert [stage][..0] == []; }
  }

  lemma {:induction false} OneCopy(c: int, gain: Value, mute: Value)
    ensures Without([Reading(c, Num(0.0), Flag(false))], [c]) == []
    ensures Copies([c], gain, mute) == [Reading(c, gain, mute)]
  {
    assert [c][..0] == [];
    var r := Reading(c, Num(0.0), Flag(false));
    assert [r][..0] == [];
  }
}
