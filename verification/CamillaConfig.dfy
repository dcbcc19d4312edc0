/** The CamillaDSP configuration and how a BEQ entry is written into it. */
module CamillaConfig {
  import opened Common
  import opened Text

  // ---- the configuration document ----

  datatype Value = Num(r: real) | Flag(b: bool) | Text(s: string)

  /** A filter's type, description and parameters; `rest` is whatever other keys the user gave it. */
  datatype Filter = Filter(
    kind: string, description: Option<string>, parameters: map<string, Value>, rest: map<string, Value>)

  /** A pipeline step that applies filters to channels, or a mixer or processor, whose body is never looked at. */
  datatype Stage = Filters(channels: seq<int>, names: seq<string>, rest: map<string, Value>) | OtherStage(body: string)

  type FilterMap = map<string, Filter>

  datatype Config = Config(filters: Option<FilterMap>, pipeline: Option<seq<Stage>>, rest: map<string, Value>) {
    function FilterMap(): FilterMap { if filters.Some? then filters.value else map[] }
    function Pipeline(): seq<Stage> { if pipeline.Some? then pipeline.value else [] }
  }

  datatype Peq = Peq(kind: string, freq: real, q: real, gain: real)

  datatype Entry = Entry(digest: string, title: string, formattedTitle: string, author: string, filters: seq<Peq>)

  const NOP := Peq("Lowshelf", 20.0, 1.0, 0.0)
  const BEQ_FILTERS := 10

  // ---- names ----

  const BEQ_PREFIX := "BEQ_"
  const GAIN_PREFIX := "Gain_"

  function GainName(c: nat): string { BEQ_PREFIX + (GAIN_PREFIX + Decimal(c)) }

  function BeqName(i: nat): string { BEQ_PREFIX + Decimal(i) }

  lemma {:induction false} NamesDiffer(c: nat, c': nat, i: nat, i': nat)
    ensures GainName(c) == GainName(c') <==> c == c'
    ensures BeqName(i) == BeqName(i') <==> i == i'
    ensures GainName(c) != BeqName(i)
  {
    PrefixesDiffer(Decimal(c), Decimal(c'), Decimal(i), Decimal(i'));
    ReadDecimal(i);
    if GainName(c) == GainName(c') { DecimalInjective(c, c'); }
    if BeqName(i) == BeqName(i') { DecimalInjective(i, i'); }
  }

  lemma {:induction false} PrefixesDiffer(a: string, a': string, b: string, b': string)
    ensures BEQ_PREFIX + (GAIN_PREFIX + a) == BEQ_PREFIX + (GAIN_PREFIX + a') ==> a == a'
    ensures BEQ_PREFIX + b == BEQ_PREFIX + b' ==> b == b'
    ensures IsDigits(b) ==> BEQ_PREFIX + (GAIN_PREFIX + a) != BEQ_PREFIX + b
  {
    DropPrefix(BEQ_PREFIX, GAIN_PREFIX + a);
    DropPrefix(BEQ_PREFIX, GAIN_PREFIX + a');
    DropPrefix(GAIN_PREFIX, a);
    DropPrefix(GAIN_PREFIX, a');
    DropPrefix(BEQ_PREFIX, b);
    DropPrefix(BEQ_PREFIX, b');
    assert (GAIN_PREFIX + a)[0] == 'G';
  }

  function BeqNames(n: nat): (r: seq<string>)
    ensures |r| == n && forall i :: 0 <= i < n ==> r[i] == BeqName(i)
  {
    seq(n, i requires 0 <= i < n => BeqName(i))
  }

  lemma {:induction false} BeqNamesDistinct(n: nat)
    ensures Distinct(BeqNames(n))
  {
    forall i, j | 0 <= i < j < n
      ensures BeqName(i) != BeqName(j)
    {
      NamesDiffer(0, 0, i, j);
    }
  }

  // ---- the filters of an entry ----

  function Padded(e: Option<Entry>): (r: seq<Peq>)
    ensures |r| >= BEQ_FILTERS
  {
    var fs := if e.Some? then e.value.filters else [];
    if |fs| >= BEQ_FILTERS then fs else fs + seq(BEQ_FILTERS - |fs|, i => NOP)
  }

  function Description(e: Option<Entry>): string {
    if e.Some? then "ezbeq filter " + e.value.digest + " - " + e.value.title else "ezbeq default filter"
  }

  function Lower(s: string): string {
    seq(|s|, i requires 0 <= i < |s| => if 'A' <= s[i] <= 'Z' then (s[i] as int + 32) as char else s[i])
  }

  function FilterType(p: Peq): string {
    if Lower(p.kind) == "lowshelf" then "Lowshelf" else if Lower(p.kind) == "highshelf" then "Highshelf" else "Peaking"
  }

  function PeqParameters(p: Peq): map<string, Value> {
    map["type" := Text(FilterType(p)), "freq" := Num(p.freq), "q" := Num(p.q), "gain" := Num(p.gain)]
  }

  /** A gain filter updated where it exists, otherwise made. */
  function GainFilter(was: Option<Filter>, gain: real, mute: bool): Filter {
    match was
    case Some(f) => f.(parameters := f.parameters["gain" := Num(gain)]["mute" := Flag(mute)])
    case None => Filter("Gain", None, map["gain" := Num(gain), "inverted" := Flag(false), "mute" := Flag(mute)], map[])
  }

  /** A biquad given new parameters where it exists (its type stays whatever it was), otherwise made. */
  function BeqFilter(was: Option<Filter>, p: Peq, description: string): Filter {
    match was
    case Some(f) => f.(description := Some(description), parameters := PeqParameters(p))
    case None => Filter("Biquad", Some(description), PeqParameters(p), map[])
  }

  function WithGains(fs: FilterMap, channels: seq<nat>, gain: real, mute: bool): FilterMap {
    if channels == [] then fs else
    var n := |channels| - 1;
    var front := WithGains(fs, channels[..n], gain, mute);
    front[GainName(channels[n]) := GainFilter(Get(front, GainName(channels[n])), gain, mute)]
  }

  function WithBeqs(fs: FilterMap, peqs: seq<Peq>, description: string): FilterMap {
    if peqs == [] then fs else
    var n := |peqs| - 1;
    var front := WithBeqs(fs, peqs[..n], description);
    front[BeqName(n) := BeqFilter(Get(front, BeqName(n)), peqs[n], description)]
  }

  // ---- the pipeline ----

  /** Some stage already puts this filter on this channel. */
  predicate Carries(pipeline: seq<Stage>, c: int, name: string) {
    exists i :: 0 <= i < |pipeline| && CarriedBy(pipeline[i], c, name)
  }

  predicate CarriedBy(s: Stage, c: int, name: string) { s.Filters? && c in s.channels && name in s.names }

  /** The channels in the order a dictionary keeps them: each where it first occurs. */
  function Keys(channels: seq<nat>): seq<nat> {
    if channels == [] then [] else
    var front, c := Keys(channels[..|channels| - 1]), channels[|channels| - 1];
    if c in front then front else front + [c]
  }

  function GainStages(pipeline: seq<Stage>, keys: seq<nat>): seq<Stage> {
    if keys == [] then [] else
    var n := |keys| - 1;
    GainStages(pipeline, keys[..n]) + GainStage(pipeline, keys[n])
  }

  function GainStage(pipeline: seq<Stage>, c: nat): seq<Stage> {
    if Carries(pipeline, c, GainName(c)) then [] else [Filters([c], [GainName(c)], map[])]
  }

  function Missing(pipeline: seq<Stage>, c: int, names: seq<string>): seq<string> {
    if names == [] then [] else
    var n := |names| - 1;
    Missing(pipeline, c, names[..n]) + if Carries(pipeline, c, names[n]) then [] else [names[n]]
  }

  /** The filters a channel lacks, sorted as strings, as the stage lists them. */
  function Lacking(pipeline: seq<Stage>, c: int, names: seq<string>): seq<string> {
    Sorted(Missing(pipeline, c, names))
  }

  predicate StringLess(a: string, b: string) {
    if b == [] then false else if a == [] then true
    else if a[0] != b[0] then a[0] < b[0] else StringLess(a[1..], b[1..])
  }

  function Insert(x: string, s: seq<string>): seq<string> {
    if s == [] then [x] else if StringLess(s[0], x) then [s[0]] + Insert(x, s[1..]) else [x] + s
  }

  function Sorted(s: seq<string>): seq<string> {
    if s == [] then [] else Insert(s[0], Sorted(s[1..]))
  }

  /** Channels that lack the same filters. */
  datatype Group = Group(names: seq<string>, channels: seq<nat>)

  function AddToGroup(groups: seq<Group>, names: seq<string>, c: nat): seq<Group> {
    if groups == [] then [Group(names, [c])]
    else if groups[0].names == names then [Group(names, groups[0].channels + [c])] + groups[1..]
    else [groups[0]] + AddToGroup(groups[1..], names, c)
  }

  function Groups(pipeline: seq<Stage>, keys: seq<nat>, names: seq<string>): seq<Group> {
    if keys == [] then [] else
    var n := |keys| - 1;
    AddToGroup(Groups(pipeline, keys[..n], names), Lacking(pipeline, keys[n], names), keys[n])
  }

  function GroupStages(groups: seq<Group>): seq<Stage> {
    if groups == [] then [] else
    var n := |groups| - 1;
    GroupStages(groups[..n]) + GroupStage(groups[n])
  }

  function GroupStage(g: Group): seq<Stage> {
    if g.names == [] then [] else [Filters(g.channels, g.names, map[])]
  }

  function EntryPipeline(base: seq<Stage>, channels: seq<nat>, names: seq<string>): seq<Stage> {
    var withGains := base + GainStages(base, Keys(channels));
    withGains + GroupStages(Groups(base, Keys(channels), names))
  }

  /** The configuration create_cfg_for_entry makes. */
  function EntryConfig(e: Option<Entry>, base: Config, channels: seq<nat>, gain: real, mute: bool): Config {
    var filters := WithBeqs(WithGains(base.FilterMap(), channels, gain, mute), Padded(e), Description(e));
    var pipeline := EntryPipeline(base.Pipeline(), channels, BeqNames(|Padded(e)|));
    Config(Some(filters), Some(pipeline), base.rest)
  }

  // ---- the loops that build it ----

  method UpdateGains(base: FilterMap, channels: seq<nat>, gain: real, mute: bool) returns (filters: FilterMap)
    ensures filters == WithGains(base, channels, gain, mute)
  {
    filters := base;
    for i := 0 to |channels|
      invariant filters == WithGains(base, channels[..i], gain, mute)
    {
      assert channels[..i + 1][..i] == channels[..i];
      var name := GainName(channels[i]);
      if name in filters {
        var f := filters[name];
        filters := filters[name := f.(parameters := f.parameters["gain" := Num(gain)]["mute" := Flag(mute)])];
      } else {
        var parameters := map["gain" := Num(gain), "inverted" := Flag(false), "mute" := Flag(mute)];
        filters := filters[name := Filter("Gain", None, parameters, map[])];
      }
    }
    assert channels[..|channels|] == channels;
  }

  method UpdateBeqs(base: FilterMap, peqs: seq<Peq>, description: string) returns (filters: FilterMap)
    ensures filters == WithBeqs(base, peqs, description)
  {
    filters := base;
    for i := 0 to |peqs|
      invariant filters == WithBeqs(base, peqs[..i], description)
    {
      assert peqs[..i + 1][..i] == peqs[..i];
      var name := BeqName(i);
      if name in filters {
        var updated := filters[name].(description := Some(description), parameters := PeqParameters(peqs[i]));
        filters := filters[name := updated];
      } else {
        filters := filters[name := Filter("Biquad", Some(description), PeqParameters(peqs[i]), map[])];
      }
    }
    assert peqs[..|peqs|] == peqs;
  }

  /** What the scan of the pipeline collects: channels whose gain filter is there, and the BEQ filters each channel
      has. */
  method Scan(pipeline: seq<Stage>, keys: seq<nat>, names: seq<string>)
    returns (gainsMatched: set<nat>, beqsMatched: map<int, set<string>>)
    ensures forall c :: c in gainsMatched <==> c in keys && Carries(pipeline, c, GainName(c))
    ensures forall c, n :: c in beqsMatched && n in beqsMatched[c] <==> n in names && Carries(pipeline, c, n)
  {
    gainsMatched, beqsMatched := {}, map[];
    for i := 0 to |pipeline|
      invariant forall c :: c in gainsMatched <==> c in keys && Carries(pipeline[..i], c, GainName(c))
      invariant forall c, n :: c in beqsMatched && n in beqsMatched[c] <==> n in names && Carries(pipeline[..i], c, n)
    {
      var f := pipeline[i];
      CarriesNext(pipeline, i);
      if f.Filters? {
        var here := set c | c in keys && c in f.channels && GainName(c) in f.names;
        gainsMatched := gainsMatched + here;
        var matched := set n | n in names && n in f.names;
        var before := beqsMatched;
        beqsMatched := before + map c | c in f.channels :: (if c in before then before[c] else {}) + matched;
      }
    }
    assert pipeline[..|pipeline|] == pipeline;
  }

  lemma {:induction false} CarriesNext(pipeline: seq<Stage>, i: nat)
    requires i < |pipeline|
    ensures forall c, n :: Carries(pipeline[..i + 1], c, n) <==>
        Carries(pipeline[..i], c, n) || CarriedBy(pipeline[i], c, n)
  {
    forall c, n
      ensures Carries(pipeline[..i + 1], c, n) <==> Carries(pipeline[..i], c, n) || CarriedBy(pipeline[i], c, n)
    {
      CarriesAppend(pipeline[..i], [pipeline[i]], c, n);
      assert pipeline[..i + 1] == pipeline[..i] + [pipeline[i]];
      assert [pipeline[i]][0] == pipeline[i];
    }
  }

  lemma {:induction false} CarriesAppend(a: seq<Stage>, b: seq<Stage>, c: int, n: string)
    ensures Carries(a + b, c, n) <==> Carries(a, c, n) || Carries(b, c, n)
  {
    if Carries(a, c, n) {
      var i :| 0 <= i < |a| && CarriedBy(a[i], c, n);
      assert (a + b)[i] == a[i];
    }
    if Carries(b, c, n) {
      var i :| 0 <= i < |b| && CarriedBy(b[i], c, n);
      assert (a + b)[|a| + i] == b[i];
    }
  }

  method DictKeys(channels: seq<nat>) returns (keys: seq<nat>)
    ensures keys == Keys(channels)
  {
    keys := [];
    for i := 0 to |channels|
      invariant keys == Keys(channels[..i])
    {
      assert channels[..i + 1][..i] == channels[..i];
      if channels[i] !in keys { keys := keys + [channels[i]]; }
    }
    assert channels[..|channels|] == channels;
  }

  /** The names not matched on a channel, in BEQ order. */
  method Unmatched(
      names: seq<string>, matched: set<string>, ghost pipeline: seq<Stage>, ghost c: int) returns (r: seq<string>)
    requires forall n :: n in matched <==> n in names && Carries(pipeline, c, n)
    ensures r == Missing(pipeline, c, names)
  {
    r := [];
    for i := 0 to |names|
      invariant r == Missing(pipeline, c, names[..i])
    {
      assert names[..i + 1][..i] == names[..i];
      if names[i] !in matched { r := r + [names[i]]; }
    }
    assert names[..|names|] == names;
  }

  lemma {:induction false} GroupsStep(base: seq<Stage>, keys: seq<nat>, i: nat, names: seq<string>)
    requires i < |keys|
    ensures Groups(base, keys[..i + 1], names) ==
            AddToGroup(Groups(base, keys[..i], names), Lacking(base, keys[i], names), keys[i])
  {
    assert keys[..i + 1][..i] == keys[..i];
  }

  method GroupChannels(base: seq<Stage>, keys: seq<nat>, names: seq<string>, matched: map<int, set<string>>)
    returns (groups: seq<Group>)
    requires forall c, n :: c in matched && n in matched[c] <==> n in names && Carries(base, c, n)
    ensures groups == Groups(base, keys, names)
  {
    groups := [];
    for i := 0 to |keys|
      invariant groups == Groups(base, keys[..i], names)
    {
      var c := keys[i];
      GroupsStep(base, keys, i, names);
      var required := Unmatched(names, if c in matched then matched[c] else {}, base, c);
      groups := AddToGroup(groups, Sorted(required), c);
    }
    assert keys[..|keys|] == keys;
  }

  method AppendGains(base: seq<Stage>, keys: seq<nat>, matched: set<nat>) returns (pipeline: seq<Stage>)
    requires forall c :: c in matched <==> c in keys && Carries(base, c, GainName(c))
    ensures pipeline == base + GainStages(base, keys)
  {
    pipeline := base;
    for i := 0 to |keys|
      invariant pipeline == base + GainStages(base, keys[..i])
    {
      assert keys[..i + 1][..i] == keys[..i];
      Regroup(base, GainStages(base, keys[..i]), GainStage(base, keys[i]));
      if keys[i] !in matched {
        pipeline := pipeline + [Filters([keys[i]], [GainName(keys[i])], map[])];
      }
    }
    assert keys[..|keys|] == keys;
  }

  method AppendGroups(withGains: seq<Stage>, groups: seq<Group>) returns (pipeline: seq<Stage>)
    ensures pipeline == withGains + GroupStages(groups)
  {
    pipeline := withGains;
    for i := 0 to |groups|
      invariant pipeline == withGains + GroupStages(groups[..i])
    {
      assert groups[..i + 1][..i] == groups[..i];
      Regroup(withGains, GroupStages(groups[..i]), GroupStage(groups[i]));
      if groups[i].names != [] {
        pipeline := pipeline + [Filters(groups[i].channels, groups[i].names, map[])];
      }
    }
    assert groups[..|groups|] == groups;
  }

  method ExtendPipeline(base: seq<Stage>, channels: seq<nat>, names: seq<string>) returns (pipeline: seq<Stage>)
    ensures pipeline == EntryPipeline(base, channels, names)
  {
    var keys := DictKeys(channels);
    var gainsMatched, beqsMatched := Scan(base, keys, names);
    var withGains := AppendGains(base, keys, gainsMatched);
    var groups := GroupChannels(base, keys, names, beqsMatched);
    pipeline := AppendGroups(withGains, groups);
  }

  method CreateCfgForEntry(
      e: Option<Entry>, base: Config, channels: seq<nat>, gain: real, mute: bool) returns (cfg: Config)
    ensures cfg == EntryConfig(e, base, channels, gain, mute)
  {
    var withGains := UpdateGains(base.FilterMap(), channels, gain, mute);
    var filters := UpdateBeqs(withGains, Padded(e), Description(e));
    var pipeline := ExtendPipeline(base.Pipeline(), channels, BeqNames(|Padded(e)|));
    cfg := base.(filters := Some(filters), pipeline := Some(pipeline));
  }
}
