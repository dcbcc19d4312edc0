/** Channel gains and mutes: writing them into a configuration and reading them back out of one. */
module CamillaGains {
  import opened Common
  import opened Text
  import opened CamillaConfig
  import opened CamillaTheorems

  /** A request for one channel; a part left out keeps what is there. */
  datatype Change = Change(channel: nat, gain: Option<real>, mute: Option<bool>)

  function Channels(values: seq<Change>): seq<nat> {
    seq(|values|, i requires 0 <= i < |values| => values[i].channel)
  }

  // ---- names the pattern recognises ----

  predicate IsAlnum(c: char) { IsDigit(c) || 'a' <= c <= 'z' || 'A' <= c <= 'Z' }

  /** `BEQ_Gain_<digits>`, or `BEQ_<digits>` with an optional `_<alphanumerics>`. */
  predicate IsBeqFilterName(n: string) { BEQ_PREFIX <= n && IsBeqTail(n[|BEQ_PREFIX|..]) }

  predicate IsBeqTail(r: string) {
    || (GAIN_PREFIX <= r && IsDigits(r[|GAIN_PREFIX|..]))
    || IsDigits(r)
    || (exists k :: 0 <= k < |r| - 1 && r[k] == '_' && IsDigits(r[..k]) && forall i :: k < i < |r| ==> IsAlnum(r[i]))
  }

  lemma {:induction false} OwnNamesAreRecognised(c: nat, i: nat)
    ensures IsBeqFilterName(GainName(c)) && IsBeqFilterName(BeqName(i))
  {
    ReadDecimal(c);
    ReadDecimal(i);
    DropPrefix(BEQ_PREFIX, GAIN_PREFIX + Decimal(c));
    DropPrefix(GAIN_PREFIX, Decimal(c));
    DropPrefix(BEQ_PREFIX, Decimal(i));
  }

  predicate IsGainFilterName(n: string) { BEQ_PREFIX + "Gain" <= n }

  // ---- writing ----

  function ChangedFilter(was: Option<Filter>, v: Change): Filter {
    match was
    case None =>
      Filter("Gain", Some("ezbeq specified gain"),
             map["gain" := Num(if v.gain.Some? then v.gain.value else 0.0), "inverted" := Flag(false),
                 "mute" := Flag(if v.mute.Some? then v.mute.value else false)], map[])
    case Some(f) =>
      var p := if v.gain.Some? then f.parameters["gain" := Num(v.gain.value)] else f.parameters;
      f.(parameters := if v.mute.Some? then p["mute" := Flag(v.mute.value)] else p)
  }

  predicate IsOwn(s: Stage, ch: nat) { s.Filters? && s.channels == [ch] }

  /** The first stage for this channel alone, or the end. */
  function Own(pipeline: seq<Stage>, ch: nat): (k: nat)
    ensures k <= |pipeline|
    ensures k < |pipeline| ==> IsOwn(pipeline[k], ch)
    ensures forall i :: 0 <= i < k ==> !IsOwn(pipeline[i], ch)
  {
    if pipeline == [] || IsOwn(pipeline[0], ch) then 0 else
    assert forall i :: 0 < i < |pipeline| ==> pipeline[1..][i - 1] == pipeline[i];
    1 + Own(pipeline[1..], ch)
  }

  /** The first name the pattern recognises, or the end. */
  function FirstBeq(names: seq<string>): (k: nat)
    ensures k <= |names|
    ensures k < |names| ==> IsBeqFilterName(names[k])
    ensures forall i :: 0 <= i < k ==> !IsBeqFilterName(names[i])
  {
    if names == [] || IsBeqFilterName(names[0]) then 0 else
    assert forall i :: 0 < i < |names| ==> names[1..][i - 1] == names[i];
    1 + FirstBeq(names[1..])
  }

  function InsertGain(names: seq<string>, name: string): seq<string> {
    if name in names then names else
    var k := FirstBeq(names);
    names[..k] + [name] + names[k..]
  }

  function WithGain(p: seq<Stage>, ch: nat, name: string): seq<Stage> {
    var k := Own(p, ch);
    if k < |p| then p[k := p[k].(names := InsertGain(p[k].names, name))]
    else p + [Filters([ch], [name], map[])]
  }

  function ChangedFilters(fs: FilterMap, values: seq<Change>): FilterMap {
    if values == [] then fs else
    var n := |values| - 1;
    var front, name := ChangedFilters(fs, values[..n]), GainName(values[n].channel);
    front[name := ChangedFilter(Get(front, name), values[n])]
  }

  function ChangedPipeline(p: seq<Stage>, values: seq<Change>): seq<Stage> {
    if values == [] then p else
    var n := |values| - 1;
    WithGain(ChangedPipeline(p, values[..n]), values[n].channel, GainName(values[n].channel))
  }

  /** The configuration create_cfg_for_gains makes; it raises when there is a change to make and no pipeline to put it
      in. */
  function GainsConfig(values: seq<Change>, base: Config): Option<Config> {
    if values != [] && base.pipeline.None? then None
    else
      Some(Config(Some(ChangedFilters(base.FilterMap(), values)),
                  if base.pipeline.Some? then Some(ChangedPipeline(base.pipeline.value, values)) else None,
                  base.rest))
  }

  method FindOwn(pipeline: seq<Stage>, ch: nat) returns (k: nat)
    ensures k == Own(pipeline, ch)
  {
    k := 0;
    while k < |pipeline| && !IsOwn(pipeline[k], ch)
      invariant k <= |pipeline| && Own(pipeline, ch) == k + Own(pipeline[k..], ch)
    {
      assert pipeline[k..][1..] == pipeline[k + 1..];
      k := k + 1;
    }
  }

  method FindBeq(names: seq<string>) returns (k: nat)
    ensures k == FirstBeq(names)
  {
    k := 0;
    while k < |names| && !IsBeqFilterName(names[k])
      invariant k <= |names| && FirstBeq(names) == k + FirstBeq(names[k..])
    {
      assert names[k..][1..] == names[k + 1..];
      k := k + 1;
    }
  }

  method AddName(names: seq<string>, name: string) returns (r: seq<string>)
    ensures r == InsertGain(names, name)
  {
    if name in names { return names; }
    var insertAt := FindBeq(names);
    return names[..insertAt] + [name] + names[insertAt..];
  }

  method AddGainToPipeline(p: seq<Stage>, ch: nat, name: string) returns (r: seq<Stage>)
    ensures r == WithGain(p, ch, name)
  {
    var existing := FindOwn(p, ch);
    if existing == |p| {
      var names := AddName([], name);
      InsertIntoNone(name);
      r := p + [Filters([ch], names, map[])];
    } else {
      var names := AddName(p[existing].names, name);
      r := p[existing := p[existing].(names := names)];
    }
  }

  lemma {:induction false} InsertIntoNone(name: string)
    ensures InsertGain([], name) == [name]
  {
  }

  method CreateCfgForGains(values: seq<Change>, base: Config) returns (cfg: Option<Config>)
    ensures cfg == GainsConfig(values, base)
  {
    var filters := base.FilterMap();
    var pipeline := base.Pipeline();
    for i := 0 to |values|
      invariant i > 0 ==> base.pipeline.Some?
      invariant filters == ChangedFilters(base.FilterMap(), values[..i])
      invariant pipeline == ChangedPipeline(base.Pipeline(), values[..i])
    {
      assert values[..i + 1][..i] == values[..i];
      var v := values[i];
      var name := GainName(v.channel);
      filters := filters[name := ChangedFilter(Get(filters, name), v)];
      if base.pipeline.None? { return None; }
      pipeline := AddGainToPipeline(pipeline, v.channel, name);
    }
    assert values[..|values|] == values;
    return Some(Config(Some(filters), if base.pipeline.Some? then Some(pipeline) else None, base.rest));
  }

  // ---- what writing changes ----

  /** t is s with one x put in somewhere. */
  ghost predicate Inserted(s: seq<string>, t: seq<string>, x: string) {
    exists k :: 0 <= k <= |s| && t == s[..k] + [x] + s[k..]
  }

  lemma {:induction false} InsertedBetween(a: seq<string>, s: seq<string>, t: seq<string>, b: seq<string>, x: string)
    requires Inserted(s, t, x)
    ensures Inserted(a + s + b, a + t + b, x)
  {
    var k :| 0 <= k <= |s| && t == s[..k] + [x] + s[k..];
    var all := a + s + b;
    assert all[..|a| + k] == a + s[..k];
    assert all[|a| + k..] == s[k..] + b;
    assert a + t + b == all[..|a| + k] + [x] + all[|a| + k..];
  }

  /** The gain goes in front of every name the pattern recognises. */
  lemma {:induction false} GainGoesFirst(names: seq<string>, name: string)
    requires name !in names
    ensures
      var r, k := InsertGain(names, name), FirstBeq(names);
      && Inserted(names, r, name) && r[k] == name
      && forall i :: 0 <= i < |r| && i != k && IsBeqFilterName(r[i]) ==> k < i
  {
  }

  lemma {:induction false} SplitAt(p: seq<Stage>, k: nat)
    requires k < |p|
    ensures p == p[..k] + [p[k]] + p[k + 1..]
  {
  }

  lemma {:induction false} ChainAround(p: seq<Stage>, k: nat, s: Stage, c: int)
    requires k < |p|
    ensures Chain(p[k := s], c) == Chain(p[..k], c) + ChainOf(s, c) + Chain(p[k + 1..], c)
  {
    var q := p[k := s];
    SplitAt(q, k);
    ChainStep(p[..k], s, c);
    ChainAppend(p[..k] + [s], p[k + 1..], c);
    assert q[..k] == p[..k] && q[k + 1..] == p[k + 1..];
  }

  /** One change leaves every other channel's chain alone, and its own too if its stage already has the gain; otherwise
      it puts the gain into its own chain once. */
  lemma {:induction false} WithGainChain(p: seq<Stage>, ch: nat, name: string, c: int)
    ensures
      var q := WithGain(p, ch, name);
      if c != ch || OwnHas(p, ch, name) then Chain(q, c) == Chain(p, c) else Inserted(Chain(p, c), Chain(q, c), name)
  {
    var k := Own(p, ch);
    if k < |p| {
      WithinStage(p, k, p[k].(names := InsertGain(p[k].names, name)), ch, name, c);
    } else {
      ChainStep(p, Filters([ch], [name], map[]), c);
      EmptyLast(Chain(p, c));
      InsertedLast(Chain(p, c), name);
    }
  }

  lemma {:induction false} InsertedLast(s: seq<string>, x: string)
    ensures Inserted(s, s + [x], x)
  {
    assert s + [x] == s[..|s|] + [x] + s[|s|..];
  }

  lemma {:induction false} WithinStage(p: seq<Stage>, k: nat, s: Stage, ch: nat, name: string, c: int)
    requires k < |p| && IsOwn(p[k], ch) && s == p[k].(names := InsertGain(p[k].names, name))
    ensures if c != ch || name in p[k].names then Chain(p[k := s], c) == Chain(p, c)
            else Inserted(Chain(p, c), Chain(p[k := s], c), name)
  {
    ChainAround(p, k, p[k], c);
    ChainAround(p, k, s, c);
    assert p[k := p[k]] == p;
    if c == ch && name !in p[k].names {
      GainGoesFirst(p[k].names, name);
      InsertedBetween(Chain(p[..k], c), p[k].names, s.names, Chain(p[k + 1..], c), name);
    }
  }

  /** The channel's own stage lists a name. */
  ghost predicate OwnHas(p: seq<Stage>, ch: nat, name: string) {
    Own(p, ch) < |p| && name in p[Own(p, ch)].names
  }

  ghost predicate OwnHasGain(p: seq<Stage>, ch: nat) { OwnHas(p, ch, GainName(ch)) }

  lemma {:induction false} OwnAfter(p: seq<Stage>, ch: nat, name: string, other: nat, name': string)
    requires other == ch ==> name' == name
    ensures OwnHas(WithGain(p, ch, name), other, name') <==> (other == ch || OwnHas(p, other, name'))
  {
    var q, k := WithGain(p, ch, name), Own(p, ch);
    var j, j' := Own(p, other), Own(q, other);
    assert forall i :: 0 <= i < |p| ==> (IsOwn(q[i], other) <==> IsOwn(p[i], other));
    if j < |p| {
      assert j' == j;
    } else if other == ch {
      assert IsOwn(q[|p|], other);
      assert j' == |p|;
    } else {
      assert j' == |q|;
    }
  }

  lemma {:induction false} ChangedChain(p: seq<Stage>, values: seq<Change>, c: int)
    requires Distinct(Channels(values))
    ensures
      var q := ChangedPipeline(p, values);
      && (!(0 <= c && c in Channels(values)) ==>
          Chain(q, c) == Chain(p, c)
          && (0 <= c ==> (OwnHasGain(q, c) <==> OwnHasGain(p, c))))
      && (0 <= c && c in Channels(values) ==>
            OwnHasGain(q, c) &&
            if OwnHasGain(p, c) then Chain(q, c) == Chain(p, c) else Inserted(Chain(p, c), Chain(q, c), GainName(c)))
  {
    if values != [] {
      var n := |values| - 1;
      var front, ch := values[..n], values[n].channel;
      assert Channels(front) == Channels(values)[..n];
      assert Channels(values) == Channels(front) + [ch];
      ChangedChain(p, front, c);
      WithGainChain(ChangedPipeline(p, front), ch, GainName(ch), c);
      if 0 <= c { OwnAfter(ChangedPipeline(p, front), ch, GainName(ch), c, GainName(c)); }
    }
  }

  /** The names of a channel's chain ahead of the place where its gain goes, if it is not in its own stage. */
  function Ahead(p: seq<Stage>, c: nat): seq<string> {
    var k := Own(p, c);
    Chain(p[..k], c) + if k < |p| then p[k].names[..FirstBeq(p[k].names)] else []
  }

  /** And those behind it. */
  function Behind(p: seq<Stage>, c: nat): seq<string> {
    var k := Own(p, c);
    if k < |p| then p[k].names[FirstBeq(p[k].names)..] + Chain(p[k + 1..], c) else []
  }

  lemma {:induction false} Rejoined(front: seq<string>, a: seq<string>, x: string, b: seq<string>, rest: seq<string>)
    ensures front + (a + [x] + b) + rest == front + a + [x] + (b + rest)
  {
  }

  lemma {:induction false} WithGainSplits(p: seq<Stage>, c: nat)
    requires !OwnHasGain(p, c)
    ensures Chain(WithGain(p, c, GainName(c)), c) == Ahead(p, c) + [GainName(c)] + Behind(p, c)
  {
    var k, name := Own(p, c), GainName(c);
    if k < |p| {
      var names, i := p[k].names, FirstBeq(p[k].names);
      var front, rest := Chain(p[..k], c), Chain(p[k + 1..], c);
      ChainAround(p, k, p[k].(names := InsertGain(names, name)), c);
      Rejoined(front, names[..i], name, names[i..], rest);
    } else {
      assert p[..k] == p;
      ChainStep(p, Filters([c], [name], map[]), c);
      EmptyLast(Chain(p, c));
      EmptyLast(Chain(p, c) + [name]);
    }
  }

  /** Another channel's gain does not move the place. */
  lemma {:induction false} OtherGainKeepsPlace(p: seq<Stage>, ch: nat, c: nat)
    requires ch != c
    ensures
      var q := WithGain(p, ch, GainName(ch));
      Ahead(q, c) == Ahead(p, c) && Behind(q, c) == Behind(p, c) && (OwnHasGain(q, c) <==> OwnHasGain(p, c))
  {
    OwnAfter(p, ch, GainName(ch), c, GainName(c));
    var k, j := Own(p, ch), Own(p, c);
    if k < |p| {
      var s := p[k].(names := InsertGain(p[k].names, GainName(ch)));
      StageElsewhere(p, k, s, c);
    } else {
      StageAtEnd(p, Filters([ch], [GainName(ch)], map[]), c);
    }
  }

  lemma {:induction false} StageElsewhere(p: seq<Stage>, k: nat, s: Stage, c: nat)
    requires k < |p| && p[k].Filters? && s.Filters? && s.channels == p[k].channels && c !in p[k].channels
    ensures Own(p[k := s], c) == Own(p, c)
    ensures Ahead(p[k := s], c) == Ahead(p, c) && Behind(p[k := s], c) == Behind(p, c)
  {
    var q, j := p[k := s], Own(p, c);
    SameOwn(p, q, c);
    if k < j {
      StageAhead(p, k, s, c, j);
      if j < |p| { TailFrom(p, q, j); }
    } else {
      StageBehind(p, k, s, c, j);
      TailFrom(q[..j + 1], p[..j + 1], j);
    }
    SamePlace(p, q, c);
  }

  lemma {:induction false} SamePlace(p: seq<Stage>, q: seq<Stage>, c: nat)
    requires |p| == |q| && Own(p, c) == Own(q, c) && Chain(p[..Own(p, c)], c) == Chain(q[..Own(p, c)], c)
    requires var j := Own(p, c); j < |p| ==> p[j] == q[j] && Chain(p[j + 1..], c) == Chain(q[j + 1..], c)
    ensures Ahead(p, c) == Ahead(q, c) && Behind(p, c) == Behind(q, c)
  {
  }

  lemma {:induction false} TailFrom(p: seq<Stage>, q: seq<Stage>, j: nat)
    requires j < |p| == |q| && p[j..] == q[j..]
    ensures p[j] == q[j] && p[j + 1..] == q[j + 1..]
  {
    assert p[j..][0] == p[j] && q[j..][0] == q[j];
    assert p[j..][1..] == p[j + 1..] && q[j..][1..] == q[j + 1..];
  }

  lemma {:induction false} StageAhead(p: seq<Stage>, k: nat, s: Stage, c: int, j: nat)
    requires k < j <= |p| && ChainOf(s, c) == ChainOf(p[k], c) == []
    ensures Chain(p[k := s][..j], c) == Chain(p[..j], c) && p[k := s][j..] == p[j..]
  {
    SilentStage(p[..j], k, s, c);
    assert p[k := s][..j] == p[..j][k := s];
  }

  lemma {:induction false} StageBehind(p: seq<Stage>, k: nat, s: Stage, c: int, j: nat)
    requires j < k < |p| && ChainOf(s, c) == ChainOf(p[k], c) == []
    ensures p[k := s][..j + 1] == p[..j + 1] && p[k := s][..j] == p[..j]
    ensures Chain(p[k := s][j + 1..], c) == Chain(p[j + 1..], c)
  {
    SilentStage(p[j + 1..], k - j - 1, s, c);
    assert p[k := s][j + 1..] == p[j + 1..][k - j - 1 := s];
  }

  lemma {:induction false} SameOwn(p: seq<Stage>, q: seq<Stage>, c: nat)
    requires |p| == |q| && forall i :: 0 <= i < |p| ==> (IsOwn(p[i], c) <==> IsOwn(q[i], c))
    ensures Own(p, c) == Own(q, c)
  {
    var j, k := Own(p, c), Own(q, c);
    assert j < |p| ==> IsOwn(q[j], c);
    assert k < |q| ==> IsOwn(p[k], c);
  }

  lemma {:induction false} SilentStage(p: seq<Stage>, k: nat, s: Stage, c: int)
    requires k < |p| && ChainOf(s, c) == ChainOf(p[k], c) == []
    ensures Chain(p[k := s], c) == Chain(p, c)
  {
    ChainAround(p, k, s, c);
    ChainAround(p, k, p[k], c);
    assert p[k := p[k]] == p;
  }

  lemma {:induction false} SilentEnd(p: seq<Stage>, s: Stage, c: int)
    requires ChainOf(s, c) == []
    ensures Chain(p + [s], c) == Chain(p, c)
  {
    ChainStep(p, s, c);
    EmptyLast(Chain(p, c));
  }

  lemma {:induction false} StageAtEnd(p: seq<Stage>, s: Stage, c: nat)
    requires s.Filters? && c !in s.channels
    ensures Ahead(p + [s], c) == Ahead(p, c) && Behind(p + [s], c) == Behind(p, c)
  {
    if Own(p, c) < |p| {
      StageAfterOwn(p, s, c);
    } else {
      OwnAfterFront(p, [s], c);
      assert Own([s], c) == 1;
      assert (p + [s])[..|p| + 1] == p + [s] && p[..|p|] == p;
      SilentEnd(p, s, c);
    }
  }

  lemma {:induction false} StageAfterOwn(p: seq<Stage>, s: Stage, c: nat)
    requires s.Filters? && c !in s.channels && Own(p, c) < |p|
    ensures Ahead(p + [s], c) == Ahead(p, c) && Behind(p + [s], c) == Behind(p, c)
  {
    var j := Own(p, c);
    OwnInFront(p, [s], c);
    assert (p + [s])[..j] == p[..j] && (p + [s])[j + 1..] == p[j + 1..] + [s];
    SilentEnd(p[j + 1..], s, c);
  }

  /** Whatever else is asked for, the gain of a requested channel goes into its chain at that place. */
  lemma {:induction false} ChangedChainSplits(p: seq<Stage>, values: seq<Change>, c: nat)
    requires Distinct(Channels(values)) && c in Channels(values) && !OwnHasGain(p, c)
    ensures Chain(ChangedPipeline(p, values), c) == Ahead(p, c) + [GainName(c)] + Behind(p, c)
  {
    var n := |values| - 1;
    var front, ch := values[..n], values[n].channel;
    assert Channels(front) == Channels(values)[..n] && Channels(values) == Channels(front) + [ch];
    if ch == c {
      assert forall i :: 0 <= i < n ==> Channels(values)[i] != Channels(values)[n];
      OthersKeepPlace(p, front, c);
      WithGainSplits(ChangedPipeline(p, front), c);
    } else {
      ChangedChainSplits(p, front, c);
      WithGainChain(ChangedPipeline(p, front), ch, GainName(ch), c);
    }
  }

  lemma {:induction false} OthersKeepPlace(p: seq<Stage>, values: seq<Change>, c: nat)
    requires c !in Channels(values)
    ensures
      var q := ChangedPipeline(p, values);
      Ahead(q, c) == Ahead(p, c) && Behind(q, c) == Behind(p, c) && (OwnHasGain(q, c) <==> OwnHasGain(p, c))
  {
    if values != [] {
      var n := |values| - 1;
      assert Channels(values) == Channels(values[..n]) + [values[n].channel];
      OthersKeepPlace(p, values[..n], c);
      OtherGainKeepsPlace(ChangedPipeline(p, values[..n]), values[n].channel, c);
    }
  }

  lemma {:induction false} InsertedCount(s: seq<string>, t: seq<string>, x: string)
    requires Inserted(s, t, x)
    ensures multiset(t) == multiset(s) + multiset{x}
  {
    var k :| 0 <= k <= |s| && t == s[..k] + [x] + s[k..];
    assert s == s[..k] + s[k..];
  }

  /** After gains are set, a requested channel carries its gain filter exactly once if and only if it did not before, or
      did exactly once and in the first stage for it alone. */
  lemma {:induction false} GainOnceIff(p: seq<Stage>, values: seq<Change>, c: nat)
    requires Distinct(Channels(values)) && c in Channels(values)
    ensures
      var before, after := multiset(Chain(p, c))[GainName(c)],
          multiset(Chain(ChangedPipeline(p, values), c))[GainName(c)];
      after == 1 <==> before == 0 || (before == 1 && OwnHasGain(p, c))
  {
    ChangedChain(p, values, c);
    if OwnHasGain(p, c) {
      var k := Own(p, c);
      var i :| 0 <= i < |p[k].names| && p[k].names[i] == GainName(c);
      assert CarriedBy(p[k], c, GainName(c));
      CarriesIffInChain(p, c, GainName(c));
    } else {
      InsertedCount(Chain(p, c), Chain(ChangedPipeline(p, values), c), GainName(c));
    }
  }

  // ---- gains the user's own stages already carry ----

  const SHARED: seq<Stage> := [Filters([2, 3], ["BEQ_Gain_2", "BEQ_Gain_3"], map[])]

  lemma {:induction false} SharedNames()
    ensures GainName(2) == "BEQ_Gain_2" && multiset(["BEQ_Gain_2", "BEQ_Gain_3"])["BEQ_Gain_2"] == 1
  {
    assert Decimal(2) == "2";
    assert "BEQ_Gain_2"[9] != "BEQ_Gain_3"[9];
  }

  lemma {:induction false} SharedChain()
    ensures Chain(SHARED, 2) == ["BEQ_Gain_2", "BEQ_Gain_3"] && Own(SHARED, 2) == 1
  {
    ChainStep([], SHARED[0], 2);
    EmptyFirst([SHARED[0]]);
    EmptyFirst(SHARED[0].names);
    assert |SHARED[0].channels| == 2;
  }

  /** A configuration may carry the gains of two channels in a stage for both, as one written by hand does: a gain
      change on one of them then applies its gain filter twice. */
  lemma {:induction false} SharedStageGainsTwice(change: Change)
    requires change.channel == 2
    ensures multiset(Chain(ChangedPipeline(SHARED, [change]), 2))["BEQ_Gain_2"] == 2
  {
    SharedNames();
    SharedChain();
    assert Channels([change]) == [2];
    ChangedChain(SHARED, [change], 2);
    InsertedCount(Chain(SHARED, 2), Chain(ChangedPipeline(SHARED, [change]), 2), GainName(2));
  }

  /** The gain stage a load appends for a channel is the first of its own there. */
  lemma {:induction false} OwnGainStage(base: seq<Stage>, keys: seq<nat>, c: nat)
    requires c in keys && !Carries(base, c, GainName(c))
    ensures Own(GainStages(base, keys), c) < |GainStages(base, keys)|
    ensures GainStages(base, keys)[Own(GainStages(base, keys), c)] == Filters([c], [GainName(c)], map[])
  {
    var n := |keys| - 1;
    var front := GainStages(base, keys[..n]);
    assert keys == keys[..n] + [keys[n]];
    if c in keys[..n] {
      OwnGainStage(base, keys[..n], c);
      OwnInFront(front, GainStage(base, keys[n]), c);
    } else {
      NoOwnGainStage(base, keys[..n], c);
      OwnAfterFront(front, GainStage(base, c), c);
    }
  }

  lemma {:induction false} NoOwnGainStage(base: seq<Stage>, keys: seq<nat>, c: nat)
    requires c !in keys
    ensures Own(GainStages(base, keys), c) == |GainStages(base, keys)|
  {
    if keys != [] {
      var n := |keys| - 1;
      assert keys == keys[..n] + [keys[n]];
      NoOwnGainStage(base, keys[..n], c);
      OwnAfterFront(GainStages(base, keys[..n]), GainStage(base, keys[n]), c);
    }
  }

  lemma {:induction false} OwnInFront(a: seq<Stage>, b: seq<Stage>, c: nat)
    requires Own(a, c) < |a|
    ensures Own(a + b, c) == Own(a, c) && (a + b)[Own(a, c)] == a[Own(a, c)]
  {
    var k := Own(a + b, c);
    assert IsOwn((a + b)[Own(a, c)], c);
    assert k < |a| ==> IsOwn(a[k], c);
  }

  lemma {:induction false} OwnAfterFront(a: seq<Stage>, b: seq<Stage>, c: nat)
    requires Own(a, c) == |a|
    ensures Own(a + b, c) == |a| + Own(b, c)
    decreases |a|
  {
    if a == [] {
      EmptyFirst(b);
    } else {
      assert !IsOwn(a[0], c);
      assert (a + b)[1..] == a[1..] + b;
      OwnAfterFront(a[1..], b, c);
    }
  }

  /** A stage the user made for a channel alone stays its first, without the gain. */
  lemma {:induction false} UserStageStaysFirst(base: seq<Stage>, more: seq<Stage>, c: nat)
    requires Own(base, c) < |base| && !Carries(base, c, GainName(c))
    ensures !OwnHasGain(base + more, c)
  {
    OwnInFront(base, more, c);
    assert !CarriedBy(base[Own(base, c)], c, GainName(c));
  }

  /** Without one, the stage a load appends for the gain comes first. */
  lemma {:induction false} LoadedStageIsFirst(base: seq<Stage>, keys: seq<nat>, more: seq<Stage>, c: nat)
    requires Own(base, c) == |base| && c in keys && !Carries(base, c, GainName(c))
    ensures OwnHasGain(base + GainStages(base, keys) + more, c)
  {
    OwnGainStage(base, keys, c);
    OwnAfterFront(base, GainStages(base, keys), c);
    OwnInFront(base + GainStages(base, keys), more, c);
  }

  /** After a load, a channel that lacked its gain has it in the first stage of its own exactly if it had no such stage
      before. */
  lemma {:induction false} OwnHasLoadedGain(base: seq<Stage>, channels: seq<nat>, names: seq<string>, c: nat)
    requires c in channels && !Carries(base, c, GainName(c))
    ensures OwnHasGain(EntryPipeline(base, channels, names), c) <==> Own(base, c) == |base|
  {
    var groups := GroupStages(Groups(base, Keys(channels), names));
    if Own(base, c) < |base| {
      Regroup(base, GainStages(base, Keys(channels)), groups);
      UserStageStaysFirst(base, GainStages(base, Keys(channels)) + groups, c);
    } else {
      KeysAreDistinct(channels);
      LoadedStageIsFirst(base, Keys(channels), groups, c);
    }
  }

  /** When gains are set after a load that brought a channel its gain, the channel carries it once exactly if it had no
      stage of its own before the load; otherwise twice. */
  lemma {:induction false} GainAfterLoadOnceIff(
      base: seq<Stage>, channels: seq<nat>, names: seq<string>, values: seq<Change>, c: nat)
    requires c in channels && !Carries(base, c, GainName(c)) && GainName(c) !in names
    requires Distinct(Channels(values)) && c in Channels(values)
    ensures
      var after := Chain(ChangedPipeline(EntryPipeline(base, channels, names), values), c);
      multiset(after)[GainName(c)] == if Own(base, c) == |base| then 1 else 2
  {
    var loaded := EntryPipeline(base, channels, names);
    LoadedGainOnce(base, channels, names, c);
    OwnHasLoadedGain(base, channels, names, c);
    ChangedChain(loaded, values, c);
    if Own(base, c) < |base| {
      InsertedCount(Chain(loaded, c), Chain(ChangedPipeline(loaded, values), c), GainName(c));
    }
  }

  lemma {:induction false} LoadedGainOnce(base: seq<Stage>, channels: seq<nat>, names: seq<string>, c: nat)
    requires c in channels && !Carries(base, c, GainName(c)) && GainName(c) !in names
    ensures multiset(Chain(EntryPipeline(base, channels, names), c))[GainName(c)] == 1
  {
    LoadExtendsChains(base, channels, names, c);
    CarriesIffInChain(base, c, GainName(c));
    SortedPermutes(Missing(base, c, names));
    MissingCounts(base, c, names, GainName(c));
  }

  lemma {:induction false} ChangedFilterAt(fs: FilterMap, values: seq<Change>, name: string)
    requires Distinct(Channels(values))
    ensures
      var r := ChangedFilters(fs, values);
      && (forall i :: 0 <= i < |values| && name == GainName(values[i].channel) ==>
          Get(r, name) == Some(ChangedFilter(Get(fs, name), values[i])))
      && ((forall i :: 0 <= i < |values| ==> name != GainName(values[i].channel)) ==> Get(r, name) == Get(fs, name))
  {
    if values != [] {
      var n := |values| - 1;
      assert Channels(values[..n]) == Channels(values)[..n];
      ChangedFilterAt(fs, values[..n], name);
      if name == GainName(values[n].channel) {
        forall i | 0 <= i < n
          ensures name != GainName(values[i].channel)
        {
          assert Channels(values)[i] != Channels(values)[n];
          NamesDiffer(values[i].channel, values[n].channel, 0, 0);
        }
      }
    }
  }

  lemma {:induction false} ChangeTwice(was: Option<Filter>, v: Change)
    ensures ChangedFilter(Some(ChangedFilter(was, v)), v) == ChangedFilter(was, v)
  {
    assert ChangedFilter(Some(ChangedFilter(was, v)), v).parameters == ChangedFilter(was, v).parameters;
  }

  lemma {:induction false} NoInsertion(p: seq<Stage>, ch: nat, name: string)
    requires OwnHas(p, ch, name)
    ensures WithGain(p, ch, name) == p
  {
    var k := Own(p, ch);
    assert p[k := p[k]] == p;
  }

  lemma {:induction false} NothingToInsert(p: seq<Stage>, values: seq<Change>)
    requires forall c :: c in Channels(values) ==> OwnHasGain(p, c)
    ensures ChangedPipeline(p, values) == p
  {
    if values != [] {
      var n := |values| - 1;
      forall c | c in Channels(values[..n])
        ensures OwnHasGain(p, c)
      {
        var i :| 0 <= i < n && Channels(values[..n])[i] == c;
        assert Channels(values)[i] == c;
      }
      NothingToInsert(p, values[..n]);
      var ch := values[n].channel;
      assert ch in Channels(values) by { assert Channels(values)[n] == ch; }
      assert OwnHasGain(p, ch);
      NoInsertion(p, ch, GainName(ch));
    }
  }

  /** Setting the same gains twice is setting them once. */
  lemma {:induction false} GainsAreIdempotent(values: seq<Change>, base: Config)
    requires Distinct(Channels(values)) && GainsConfig(values, base).Some?
    ensures GainsConfig(values, GainsConfig(values, base).value) == GainsConfig(values, base)
  {
    var once := GainsConfig(values, base).value;
    var fs := ChangedFilters(base.FilterMap(), values);
    forall name
      ensures Get(ChangedFilters(fs, values), name) == Get(fs, name)
    {
      ChangedFilterAt(base.FilterMap(), values, name);
      ChangedFilterAt(fs, values, name);
      if i :| 0 <= i < |values| && name == GainName(values[i].channel) {
        ChangeTwice(Get(base.FilterMap(), name), values[i]);
      }
    }
    SameMaps(ChangedFilters(fs, values), fs);
    if base.pipeline.Some? {
      var p := once.pipeline.value;
      forall c | c in Channels(values)
        ensures OwnHasGain(p, c)
      {
        ChangedChain(base.pipeline.value, values, c);
      }
      NothingToInsert(p, values);
    }
  }
}
