/** What the filters of a CamillaDSP configuration hold after a load, a clear or a change of gains, value by value. */
module CamillaContents {
  import opened Common
  import Text
  import opened CamillaConfig
  import opened CamillaTheorems
  import opened CamillaGains

  /** A value of a filter of the configuration. */
  function Parameter(cfg: Config, name: string, key: string): Option<Value> {
    if name in cfg.FilterMap() then Get(cfg.FilterMap()[name].parameters, key) else None
  }

  /** Equal but for the case of ASCII letters; `word` is in lower case. */
  predicate SameWord(s: string, word: string) {
    |s| == |word| && forall i :: 0 <= i < |s| ==> SameLetter(s[i], word[i])
  }

  predicate SameLetter(a: char, b: char) { a as int + (if 'A' <= a <= 'Z' then 32 else 0) == b as int }

  /** BEQ_i has the frequency, q and gain of a filter, and the type its kind stands for. */
  ghost predicate HoldsFilter(cfg: Config, i: nat, p: Peq) {
    var name := "BEQ_" + Text.Decimal(i);
    && Parameter(cfg, name, "freq") == Some(Num(p.freq))
    && Parameter(cfg, name, "q") == Some(Num(p.q))
    && Parameter(cfg, name, "gain") == Some(Num(p.gain))
    && Parameter(cfg, name, "type") ==
       Some(CamillaConfig.Text(if SameWord(p.kind, "lowshelf") then "Lowshelf"
                               else if SameWord(p.kind, "highshelf") then "Highshelf" else "Peaking"))
  }

  /** BEQ_i is there and changes nothing: its gain is zero. */
  ghost predicate IsFlat(cfg: Config, i: nat) { Parameter(cfg, "BEQ_" + Text.Decimal(i), "gain") == Some(Num(0.0)) }

  /** The device's BEQ filters are those of an entry, and the rest of the ten change nothing. */
  ghost predicate HoldsEntry(cfg: Config, e: Entry) {
    && (forall i :: 0 <= i < |e.filters| ==> HoldsFilter(cfg, i, e.filters[i]))
    && (forall i :: |e.filters| <= i < 10 ==> IsFlat(cfg, i))
  }

  /** None of the ten changes anything. */
  ghost predicate HoldsNothing(cfg: Config) { forall i :: 0 <= i < 10 ==> IsFlat(cfg, i) }

  lemma {:induction false} LowerIs(s: string, word: string)
    ensures Lower(s) == word <==> SameWord(s, word)
  {
    if Lower(s) == word {
      forall i | 0 <= i < |s|
        ensures SameLetter(s[i], word[i])
      {
        assert Lower(s)[i] == word[i];
      }
    }
  }

  /** The parameters written for a peq are its own. */
  lemma {:induction false} WrittenIsHeld(cfg: Config, i: nat, p: Peq)
    requires BeqName(i) in cfg.FilterMap() && cfg.FilterMap()[BeqName(i)].parameters == PeqParameters(p)
    ensures HoldsFilter(cfg, i, p)
  {
    LowerIs(p.kind, "lowshelf");
    LowerIs(p.kind, "highshelf");
  }

  /** A load writes the entry's filters, in order, and fills up to ten with flat ones; a clear makes all ten flat. */
  lemma {:induction false} LoadWritesEntry(e: Option<Entry>, base: Config, channels: seq<nat>, gain: real, mute: bool)
    ensures e.Some? ==> HoldsEntry(EntryConfig(e, base, channels, gain, mute), e.value)
    ensures e.None? ==> HoldsNothing(EntryConfig(e, base, channels, gain, mute))
  {
    var cfg := EntryConfig(e, base, channels, gain, mute);
    forall i | 0 <= i < |Padded(e)|
      ensures HoldsFilter(cfg, i, Padded(e)[i])
    {
      EntryFilterAt(e, base, channels, gain, mute, BeqName(i));
      WrittenIsHeld(cfg, i, Padded(e)[i]);
    }
    var fs := if e.Some? then e.value.filters else [];
    forall i | 0 <= i < 10 && |fs| <= i
      ensures IsFlat(cfg, i)
    {
      assert HoldsFilter(cfg, i, Padded(e)[i]);
    }
    forall i | 0 <= i < |fs|
      ensures HoldsFilter(cfg, i, fs[i])
    {
      assert HoldsFilter(cfg, i, Padded(e)[i]);
    }
  }

  /** A filter with this description and four parameters; what it was before decides everything else about it, and a
      new one is a plain biquad. */
  predicate Describes(f: Filter, was: Option<Filter>, description: string) {
    && f.description == Some(description) && f.parameters.Keys == {"type", "freq", "q", "gain"}
    && f.kind == (if was.Some? then was.value.kind else "Biquad")
    && f.rest == if was.Some? then was.value.rest else map[]
  }

  lemma {:induction false} BeqFilterDescribes(was: Option<Filter>, p: Peq, description: string)
    ensures Describes(BeqFilter(was, p, description), was, description)
  {
  }

  lemma {:induction false} LoadedBeq(
      e: Option<Entry>, base: Config, channels: seq<nat>, gain: real, mute: bool, i: nat)
    requires i < |Padded(e)|
    ensures
      var was := Get(base.FilterMap(), BeqName(i));
      Get(EntryConfig(e, base, channels, gain, mute).FilterMap(), BeqName(i)) ==
      Some(BeqFilter(was, Padded(e)[i], Description(e)))
  {
    EntryFilterAt(e, base, channels, gain, mute, BeqName(i));
  }

  /** It describes them by the entry, with no other parameters, keeps what else filters that were there have, and makes
      new ones biquads. */
  lemma {:induction false} LoadDescribesFilters(
      e: Option<Entry>, base: Config, channels: seq<nat>, gain: real, mute: bool, i: nat)
    requires i < 10 || (e.Some? && i < |e.value.filters|)
    ensures
      var name, cfg := "BEQ_" + Text.Decimal(i), EntryConfig(e, base, channels, gain, mute);
      && name in cfg.FilterMap()
      && Describes(cfg.FilterMap()[name], Get(base.FilterMap(), name),
           if e.Some? then "ezbeq filter " + e.value.digest + " - " + e.value.title else "ezbeq default filter")
  {
    LoadedBeq(e, base, channels, gain, mute, i);
    BeqFilterDescribes(Get(base.FilterMap(), BeqName(i)), Padded(e)[i], Description(e));
  }

  /** Each channel's gain filter gets the gain and mute of the load, and keeps its other values and its type; a new one
      is of type Gain. */
  lemma {:induction false} LoadWritesGains(
      e: Option<Entry>, base: Config, channels: seq<nat>, gain: real, mute: bool, c: nat, key: string)
    requires c in channels
    ensures
      var name, cfg := "BEQ_Gain_" + Text.Decimal(c), EntryConfig(e, base, channels, gain, mute);
      && name in cfg.FilterMap()
      && cfg.FilterMap()[name].kind == (if name in base.FilterMap() then base.FilterMap()[name].kind else "Gain")
      && Parameter(cfg, name, key) ==
         if key == "gain" then Some(Num(gain)) else if key == "mute" then Some(Flag(mute))
         else if name in base.FilterMap() then Parameter(base, name, key)
         else if key == "inverted" then Some(Flag(false)) else None
    ensures
      var name, f := "BEQ_Gain_" + Text.Decimal(c),
          EntryConfig(e, base, channels, gain, mute).FilterMap()["BEQ_Gain_" + Text.Decimal(c)];
      (f.description, f.rest) ==
      if name in base.FilterMap() then (base.FilterMap()[name].description, base.FilterMap()[name].rest)
          else (None, map[])
  {
    GainNameIs(c);
    LoadedGain(e, base, channels, gain, mute, c);
    SetGainHolds(Get(base.FilterMap(), GainName(c)), gain, mute, key);
  }

  lemma {:induction false} LoadedGain(
      e: Option<Entry>, base: Config, channels: seq<nat>, gain: real, mute: bool, c: nat)
    requires c in channels
    ensures Get(EntryConfig(e, base, channels, gain, mute).FilterMap(), GainName(c)) ==
            Some(GainFilter(Get(base.FilterMap(), GainName(c)), gain, mute))
  {
    EntryFilterAt(e, base, channels, gain, mute, GainName(c));
    var i :| 0 <= i < |channels| && channels[i] == c;
    assert IsGainName(GainName(c), channels);
  }

  lemma {:induction false} SetGainHolds(was: Option<Filter>, gain: real, mute: bool, key: string)
    ensures
      Get(GainFilter(was, gain, mute).parameters, key) ==
      if key == "gain" then Some(Num(gain)) else if key == "mute" then Some(Flag(mute))
      else if was.Some? then Get(was.value.parameters, key)
      else if key == "inverted" then Some(Flag(false)) else None
  {
  }

  lemma {:induction false} GainNameIs(c: nat)
    ensures GainName(c) == "BEQ_Gain_" + Text.Decimal(c)
  {
    assert "BEQ_Gain_" == "BEQ_" + "Gain_";
    Regroup("BEQ_", "Gain_", Text.Decimal(c));
  }

  /** A change of gains sets, for each channel asked for, the parts asked for and keeps the rest; a new filter has gain
      0 and no mute where nothing else is asked for. */
  lemma {:induction false} GainsAreWritten(values: seq<Change>, base: Config, k: nat, key: string)
    requires Distinct(Channels(values)) && k < |values| && GainsConfig(values, base).Some?
    ensures
      var v, cfg := values[k], GainsConfig(values, base).value;
      var name := "BEQ_Gain_" + Text.Decimal(v.channel);
      && name in cfg.FilterMap()
      && cfg.FilterMap()[name].kind == (if name in base.FilterMap() then base.FilterMap()[name].kind else "Gain")
      && Parameter(cfg, name, key) ==
         if key == "gain" && v.gain.Some? then Some(Num(v.gain.value))
         else if key == "mute" && v.mute.Some? then Some(Flag(v.mute.value))
         else if name in base.FilterMap() then Parameter(base, name, key)
         else if key == "gain" then Some(Num(0.0)) else if key == "mute" || key == "inverted" then Some(Flag(false))
             else None
  {
    GainNameIs(values[k].channel);
    ChangedFilterAt(base.FilterMap(), values, GainName(values[k].channel));
  }

  /** It keeps what else the filter has, and describes a new one as its own. */
  lemma {:induction false} GainsDescribeFilters(values: seq<Change>, base: Config, k: nat)
    requires Distinct(Channels(values)) && k < |values| && GainsConfig(values, base).Some?
    ensures
      var name, cfg := "BEQ_Gain_" + Text.Decimal(values[k].channel), GainsConfig(values, base).value;
      && name in cfg.FilterMap()
      && (cfg.FilterMap()[name].description, cfg.FilterMap()[name].rest) ==
         if name in base.FilterMap() then (base.FilterMap()[name].description, base.FilterMap()[name].rest)
         else (Some("ezbeq specified gain"), map[])
  {
    GainNameIs(values[k].channel);
    ChangedFilterAt(base.FilterMap(), values, GainName(values[k].channel));
  }

  /** Every other filter is as it was. */
  lemma {:induction false} OtherFiltersAreKept(values: seq<Change>, base: Config, name: string)
    requires Distinct(Channels(values)) && GainsConfig(values, base).Some?
    requires forall k :: 0 <= k < |values| ==> name != "BEQ_Gain_" + Text.Decimal(values[k].channel)
    ensures Get(GainsConfig(values, base).value.FilterMap(), name) == Get(base.FilterMap(), name)
    ensures GainsConfig(values, base).value.rest == base.rest
  {
    forall k | 0 <= k < |values|
      ensures name != GainName(values[k].channel)
    {
      GainNameIs(values[k].channel);
    }
    ChangedFilterAt(base.FilterMap(), values, name);
  }

  lemma {:induction false} GainsKeepBeq(values: seq<Change>, base: Config, i: nat)
    requires Distinct(Channels(values)) && GainsConfig(values, base).Some?
    ensures Get(GainsConfig(values, base).value.FilterMap(), BeqName(i)) == Get(base.FilterMap(), BeqName(i))
  {
    forall k | 0 <= k < |values|
      ensures BeqName(i) != GainName(values[k].channel)
    {
      NamesDiffer(values[k].channel, 0, i, 0);
    }
    ChangedFilterAt(base.FilterMap(), values, BeqName(i));
  }

  lemma {:induction false} SameBeq(a: Config, b: Config, i: nat)
    requires Get(a.FilterMap(), BeqName(i)) == Get(b.FilterMap(), BeqName(i))
    ensures IsFlat(a, i) <==> IsFlat(b, i)
    ensures forall p: Peq :: HoldsFilter(a, i, p) <==> HoldsFilter(b, i, p)
  {
  }

  /** Changing gains leaves an entry's filters alone, and flat ones flat. */
  lemma {:induction false} GainsKeepEntry(e: Entry, base: Config, values: seq<Change>)
    requires Distinct(Channels(values)) && GainsConfig(values, base).Some?
    ensures HoldsEntry(base, e) ==> HoldsEntry(GainsConfig(values, base).value, e)
    ensures HoldsNothing(base) ==> HoldsNothing(GainsConfig(values, base).value)
  {
    var cfg := GainsConfig(values, base).value;
    forall i | 0 <= i < |e.filters|
      ensures HoldsFilter(cfg, i, e.filters[i]) <==> HoldsFilter(base, i, e.filters[i])
    {
      GainsKeepBeq(values, base, i);
      SameBeq(cfg, base, i);
    }
    forall i | 0 <= i < 10
      ensures IsFlat(cfg, i) <==> IsFlat(base, i)
    {
      GainsKeepBeq(values, base, i);
      SameBeq(cfg, base, i);
    }
  }

  // ---- which filters a load adds ----

  /** How many BEQ filters a load writes: the entry's, and at least ten. */
  function Written(e: Option<Entry>): nat {
    if e.Some? && |e.value.filters| > 10 then |e.value.filters| else 10
  }

  /** One of the names a load uses for a channel. */
  ghost predicate IsLoadName(e: Option<Entry>, c: nat, name: string) {
    name == "BEQ_Gain_" + Text.Decimal(c) || exists i :: 0 <= i < Written(e) && name == "BEQ_" + Text.Decimal(i)
  }

  /** Every filter of no such name is as it was. */
  lemma {:induction false} LoadKeepsOtherFilters(
      e: Option<Entry>, base: Config, channels: seq<nat>, gain: real, mute: bool, name: string)
    requires forall i :: 0 <= i < Written(e) ==> name != "BEQ_" + Text.Decimal(i)
    requires forall i :: 0 <= i < |channels| ==> name != "BEQ_Gain_" + Text.Decimal(channels[i])
    ensures Get(EntryConfig(e, base, channels, gain, mute).FilterMap(), name) == Get(base.FilterMap(), name)
    ensures EntryConfig(e, base, channels, gain, mute).rest == base.rest
  {
    forall i | 0 <= i < |channels|
      ensures name != GainName(channels[i])
    {
      GainNameIs(channels[i]);
    }
    assert |Padded(e)| == Written(e);
    EntryFilterAt(e, base, channels, gain, mute, name);
  }

  lemma {:induction false} NameCounts(n: nat, name: string)
    ensures multiset(BeqNames(n))[name] == if exists i :: 0 <= i < n && name == BeqName(i) then 1 else 0
  {
    BeqNamesDistinct(n);
    DistinctCounts(BeqNames(n), name);
    if i :| 0 <= i < n && name == BeqName(i) { assert BeqNames(n)[i] == name; }
  }

  lemma {:induction false} GainedCounts(base: seq<Stage>, channels: seq<nat>, n: nat, c: nat, name: string)
    requires c in channels
    ensures multiset(Gained(base, channels, BeqNames(n), c))[name] ==
            if Carries(base, c, name) then 0
            else if name == GainName(c) || exists i :: 0 <= i < n && name == BeqName(i) then 1 else 0
  {
    var names, lacking := BeqNames(n), Lacking(base, c, BeqNames(n));
    SortedPermutes(Missing(base, c, names));
    MissingCounts(base, c, names, name);
    NameCounts(n, name);
    var own := if Carries(base, c, GainName(c)) then [] else [GainName(c)];
    assert multiset(own + lacking) == multiset(own) + multiset(lacking);
    if i :| 0 <= i < n && name == BeqName(i) { NamesDiffer(c, c, i, i); }
  }

  /** A name of the first n BEQ filters or of the channel's gain. */
  ghost predicate IsName(n: nat, c: nat, name: string) {
    name == GainName(c) || exists i :: 0 <= i < n && name == BeqName(i)
  }

  lemma {:induction false} LoadNamesAre(e: Option<Entry>, c: nat, name: string)
    ensures |Padded(e)| == Written(e) && (IsLoadName(e, c, name) <==> IsName(Written(e), c, name))
  {
    GainNameIs(c);
    if i :| 0 <= i < Written(e) && name == BeqName(i) { assert name == "BEQ_" + Text.Decimal(i); }
    if i :| 0 <= i < Written(e) && name == "BEQ_" + Text.Decimal(i) { assert name == BeqName(i); }
  }

  lemma {:induction false} ChainsAreCompleted(before: seq<Stage>, channels: seq<nat>, n: nat, c: nat, name: string)
    ensures
      var after := EntryPipeline(before, channels, BeqNames(n));
      && before <= after
      && multiset(Chain(after, c))[name] ==
         multiset(Chain(before, c))[name]
         + if c in channels && IsName(n, c, name) && name !in Chain(before, c) then 1 else 0
  {
    LoadExtendsChains(before, channels, BeqNames(n), c);
    CarriesIffInChain(before, c, name);
    var chain, gained := Chain(before, c), Gained(before, channels, BeqNames(n), c);
    assert multiset(chain + gained) == multiset(chain) + multiset(gained);
    if c in channels { GainedCounts(before, channels, n, c, name); }
  }

  /** The old pipeline comes first, and each BEQ channel's chain gains every one of these names it lacked, once, and no
      other name; no other chain changes. */
  lemma {:induction false} LoadCompletesChains(
      e: Option<Entry>, base: Config, channels: seq<nat>, gain: real, mute: bool, c: nat, name: string)
    ensures
      var before, after := base.Pipeline(), EntryConfig(e, base, channels, gain, mute).Pipeline();
      && before <= after
      && multiset(Chain(after, c))[name] ==
         multiset(Chain(before, c))[name]
         + if c in channels && IsLoadName(e, c, name) && name !in Chain(before, c) then 1 else 0
  {
    LoadNamesAre(e, c, name);
    ChainsAreCompleted(base.Pipeline(), channels, Written(e), c, name);
  }

  // ---- the order of the names in a stage ----

  /** The strings part at k: there the first ends, or has the smaller character. */
  predicate LessAt(a: string, b: string, k: nat) {
    k <= |a| && k < |b| && (forall i :: 0 <= i < k ==> a[i] == b[i]) && (k < |a| ==> a[k] < b[k])
  }

  lemma {:induction false} LessParts(a: string, b: string) returns (k: nat)
    requires StringLess(a, b)
    ensures LessAt(a, b, k)
  {
    if a == [] || a[0] != b[0] {
      k := 0;
    } else {
      k := LessParts(a[1..], b[1..]);
      assert forall i :: 0 < i < k + 1 ==> a[i] == a[1..][i - 1] && b[i] == b[1..][i - 1];
      k := k + 1;
    }
  }

  lemma {:induction false} PartsLess(a: string, b: string, k: nat)
    requires LessAt(a, b, k)
    ensures StringLess(a, b)
  {
    if k > 0 { PartsLess(a[1..], b[1..], k - 1); }
  }

  /** Strings are ordered by the first character that differs; a prefix comes first. */
  lemma {:induction false} LessIff(a: string, b: string)
    ensures StringLess(a, b) <==> exists k :: 0 <= k <= |a| && LessAt(a, b, k)
  {
    if StringLess(a, b) { var k := LessParts(a, b); }
    if k :| 0 <= k <= |a| && LessAt(a, b, k) { PartsLess(a, b, k); }
  }

  lemma {:induction false} LessIsOneWay(a: string, b: string)
    requires StringLess(a, b)
    ensures !StringLess(b, a)
  {
    if a != [] && a[0] == b[0] { LessIsOneWay(a[1..], b[1..]); }
  }

  predicate InOrder(s: seq<string>) { forall i :: 0 <= i < |s| - 1 ==> !StringLess(s[i + 1], s[i]) }

  lemma {:induction false} InsertKeepsOrder(x: string, s: seq<string>)
    requires InOrder(s)
    ensures InOrder(Insert(x, s)) && Insert(x, s) != []
    ensures Insert(x, s)[0] == x || (s != [] && Insert(x, s)[0] == s[0])
  {
    if s != [] && StringLess(s[0], x) {
      LessIsOneWay(s[0], x);
      assert forall i :: 0 <= i < |s[1..]| ==> s[1..][i] == s[i + 1];
      InsertKeepsOrder(x, s[1..]);
    }
  }

  /** The names a channel lacks are listed in order. */
  lemma {:induction false} SortedIsInOrder(s: seq<string>)
    ensures InOrder(Sorted(s))
  {
    if s != [] {
      SortedIsInOrder(s[1..]);
      InsertKeepsOrder(s[0], Sorted(s[1..]));
    }
  }

  // ---- names ----

  /** `BEQ_Gain_` and digits; or `BEQ_` and digits, with nothing else or an underscore and letters or digits after
      them. */
  predicate IsWritten(n: string, digits: string, suffix: string) {
    && Text.IsDigits(digits)
    && ((n == "BEQ_Gain_" + digits && suffix == [])
        || (n == "BEQ_" + digits + suffix
            && (suffix == [] || (|suffix| >= 2 && suffix[0] == '_' && forall i :: 1 <= i < |suffix| ==>
                IsAlnum(suffix[i])))))
  }

  lemma {:induction false} GainIsWritten(n: string, r: string, digits: string)
    requires n == "BEQ_" + r && r == "Gain_" + digits && Text.IsDigits(digits)
    ensures IsWritten(n, digits, [])
  {
    Regroup("BEQ_", "Gain_", digits);
  }

  lemma {:induction false} BeqIsWritten(n: string, r: string, digits: string, suffix: string)
    requires n == "BEQ_" + r && r == digits + suffix && Text.IsDigits(digits)
    requires suffix == [] || (|suffix| >= 2 && suffix[0] == '_' && forall i :: 1 <= i < |suffix| ==> IsAlnum(suffix[i]))
    ensures IsWritten(n, digits, suffix)
  {
    Regroup("BEQ_", digits, suffix);
  }

  lemma {:induction false} SuffixIsWritten(n: string, r: string, k: nat)
    requires n == "BEQ_" + r && k < |r| - 1 && r[k] == '_' && Text.IsDigits(r[..k])
    requires forall i :: k < i < |r| ==> IsAlnum(r[i])
    ensures IsWritten(n, r[..k], r[k..])
  {
    BeqIsWritten(n, r, r[..k], r[k..]);
  }

  lemma {:induction false} RecognisedIsWritten(n: string) returns (digits: string, suffix: string)
    requires IsBeqFilterName(n)
    ensures IsWritten(n, digits, suffix)
  {
    var r := n[|BEQ_PREFIX|..];
    assert n == "BEQ_" + r;
    if GAIN_PREFIX <= r && Text.IsDigits(r[|GAIN_PREFIX|..]) {
      digits, suffix := r[|GAIN_PREFIX|..], [];
      GainIsWritten(n, r, digits);
    } else if Text.IsDigits(r) {
      digits, suffix := r, [];
      BeqIsWritten(n, r, r, []);
    } else {
      var k :| 0 <= k < |r| - 1 && r[k] == '_' && Text.IsDigits(r[..k]) && forall i :: k < i < |r| ==> IsAlnum(r[i]);
      digits, suffix := r[..k], r[k..];
      SuffixIsWritten(n, r, k);
    }
  }

  lemma {:induction false} WrittenIsRecognised(n: string, digits: string, suffix: string)
    requires IsWritten(n, digits, suffix)
    ensures IsBeqFilterName(n)
  {
    var r := n[|BEQ_PREFIX|..];
    if n == "BEQ_Gain_" + digits && suffix == [] {
      Regroup("BEQ_", "Gain_", digits);
      assert r == "Gain_" + digits && r[|GAIN_PREFIX|..] == digits;
    } else {
      assert r == digits + suffix;
      if suffix == [] {
        assert r == digits;
      } else {
        var k := |digits|;
        assert r[k] == '_' && r[..k] == digits && forall i :: k < i < |r| ==> r[i] == suffix[i - k];
      }
    }
  }

  /** The names a new gain is put ahead of. */
  lemma {:induction false} RecognisedIff(n: string)
    ensures IsBeqFilterName(n) <==> exists digits, suffix :: IsWritten(n, digits, suffix)
  {
    if IsBeqFilterName(n) { var digits, suffix := RecognisedIsWritten(n); }
    if digits, suffix :| IsWritten(n, digits, suffix) { WrittenIsRecognised(n, digits, suffix); }
  }
}
