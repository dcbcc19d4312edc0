/** The devices ezbeq starts with, and that a composite among them never applies a balance operation to only some of
    its members. */
module Startup {
  import opened Common
  import opened Composite
  import opened Validation

  datatype Built = BuiltSingle(t: DeviceType) | BuiltGroup(members: seq<string>, specs: map<string, MemberSpec>)

  datatype StartError =
    | Rejected(error: ConfigError)
    | UnknownDeviceType(name: string)
    | OverridesNotADict(name: string)
    | NoDevice

  function TypeOf(cfg: Config, m: string): DeviceType { if KindOf(cfg, m).Known? then KindOf(cfg, m).t else Minidsp }

  function OverridesOf(v: Values): map<string, Override> {
    if v.Group? && v.mode == Mapped && v.members.DictOf? then v.members.overrides else map[]
  }

  function SpecsOf(cfg: Config, n: string): map<string, MemberSpec>
    requires IsComposite(cfg, n)
  {
    map m | m in NamesOf(cfg, n) :: SpecOf(TypeOf(cfg, m), cfg[n].mode == Mapped, OverridesOf(cfg[n]), m)
  }

  function BuiltOf(cfg: Config, n: string): Built
    requires n in cfg
  {
    if cfg[n].Single? then BuiltSingle(TypeOf(cfg, n)) else BuiltGroup(NamesOf(cfg, n), SpecsOf(cfg, n))
  }

  /** What it takes to start: an acceptable configuration of known devices, every mapped composite with a dict of
      members. */
  ghost predicate Starts(cfg: Config) {
    && Acceptable(cfg) && cfg != map[]
    && (forall n :: n in cfg && cfg[n].Single? ==> cfg[n].kind.Known?)
    && (forall n :: n in cfg && cfg[n].Group? && cfg[n].mode == Mapped ==> cfg[n].members.DictOf?)
  }

  ghost predicate IsOrder(order: seq<string>, cfg: Config) { Distinct(order) && forall n :: n in order <==> n in cfg }

  method BuildSingles(cfg: Config, order: seq<string>) returns (r: Result<map<string, Built>, StartError>)
    requires IsOrder(order, cfg)
    ensures r.Ok? <==> forall n :: n in cfg && cfg[n].Single? ==> cfg[n].kind.Known?
    ensures r.Ok? ==> forall n :: n in r.value <==> n in cfg && cfg[n].Single?
    ensures r.Ok? ==> forall n :: n in r.value ==> r.value[n] == BuiltOf(cfg, n)
    ensures r.Err? ==> r.error.UnknownDeviceType?
  {
    var devices: map<string, Built> := map[];
    for i := 0 to |order|
      invariant forall n :: n in devices <==> n in order[..i] && cfg[n].Single?
      invariant forall n :: n in devices ==> cfg[n].kind.Known? && devices[n] == BuiltOf(cfg, n)
    {
      var n := order[i];
      assert n in order && order[..i + 1] == order[..i] + [n];
      if cfg[n].Single? {
        if cfg[n].kind.Unknown? { return Err(UnknownDeviceType(n)); }
        devices := devices[n := BuiltSingle(cfg[n].kind.t)];
      }
    }
    assert order[..|order|] == order;
    return Ok(devices);
  }

  lemma {:induction false} MembersAreBuilt(cfg: Config, n: string, devices: map<string, Built>)
    requires Acceptable(cfg) && IsComposite(cfg, n)
    requires forall m :: m in cfg && cfg[m].Single? ==> m in devices && devices[m] == BuiltOf(cfg, m)
    ensures forall m :: m in NamesOf(cfg, n) ==> m in devices && devices[m] == BuiltSingle(TypeOf(cfg, m))
  {
    assert MembersAreRight(cfg, n);
  }

  method BuildGroups(cfg: Config, order: seq<string>, singles: map<string, Built>)
      returns (r: Result<map<string, Built>, StartError>)
    requires IsOrder(order, cfg) && Acceptable(cfg)
    requires forall n :: n in singles <==> n in cfg && cfg[n].Single?
    requires forall n :: n in singles ==> singles[n] == BuiltOf(cfg, n)
    ensures r.Ok? <==> forall n :: n in cfg && cfg[n].Group? && cfg[n].mode == Mapped ==> cfg[n].members.DictOf?
    ensures r.Ok? ==> forall n :: n in r.value <==> n in cfg
    ensures r.Ok? ==> forall n :: n in r.value ==> r.value[n] == BuiltOf(cfg, n)
    ensures r.Err? ==> r.error.OverridesNotADict?
  {
    var devices := singles;
    for i := 0 to |order|
      invariant forall n :: n in devices <==> n in cfg && (cfg[n].Single? || n in order[..i])
      invariant forall n :: n in order[..i] && cfg[n].Group? && cfg[n].mode == Mapped ==> cfg[n].members.DictOf?
      invariant forall n :: n in devices ==> devices[n] == BuiltOf(cfg, n)
    {
      var n := order[i];
      assert n in order && order[..i + 1] == order[..i] + [n];
      if cfg[n].Group? {
        MembersAreBuilt(cfg, n, devices);
        if cfg[n].mode == Mapped && !cfg[n].members.DictOf? { return Err(OverridesNotADict(n)); }
        var specs := BuildMemberSpecs(cfg, n, devices);
        devices := devices[n := BuiltGroup(NamesOf(cfg, n), specs)];
      }
    }
    assert order[..|order|] == order;
    return Ok(devices);
  }

  /** Every device, in the order of the configuration, exactly if it Starts; `composites` is the order the set of
      composites is visited in. */
  method CreateDevices(
      cfg: Config, order: seq<string>, composites: seq<string>) returns (r: Result<seq<(string, Built)>, StartError>)
    requires IsOrder(order, cfg) && Enumerates(composites, cfg)
    ensures r.Ok? <==> Starts(cfg)
    ensures r.Ok? ==> |r.value| == |order| && forall i :: 0 <= i < |order| ==>
        r.value[i] == (order[i], BuiltOf(cfg, order[i]))
    ensures r.Err? && r.error.Rejected? ==> Explains(cfg, r.error.error)
  {
    var check := ValidateCompositeConfigs(cfg, composites);
    if check.Err? { return Err(Rejected(check.error)); }
    var singles := BuildSingles(cfg, order);
    if singles.Err? { return Err(singles.error); }
    var devices := BuildGroups(cfg, order, singles.value);
    if devices.Err? { return Err(devices.error); }
    if order == [] { return Err(NoDevice); }
    assert order[0] in cfg;
    var all := devices.value;
    return Ok(seq(|order|, i requires 0 <= i < |order| && order[i] in all => (order[i], all[order[i]])));
  }

  method BuildMemberSpecs(cfg: Config, n: string, devices: map<string, Built>) returns (specs: map<string, MemberSpec>)
    requires IsComposite(cfg, n)
    requires forall m :: m in NamesOf(cfg, n) ==> m in devices && devices[m] == BuiltSingle(TypeOf(cfg, m))
    ensures specs == SpecsOf(cfg, n)
  {
    var names := NamesOf(cfg, n);
    var types := map m | m in names && devices[m].BuiltSingle? :: devices[m].t;
    specs := BuildSpecs(names, types, cfg[n].mode == Mapped, OverridesOf(cfg[n]));
  }

  // ---- what the configuration says of a member ----

  /** What a member's class can do: only a minidsp takes biquads and raw commands, and only a minidsp and a CamillaDSP
      take gains and mutes. */
  predicate CanDo(t: DeviceType, op: Op) {
    match op
    case LoadBiquads => t == Minidsp
    case SendCommands => t == Minidsp
    case SetGain => t == Minidsp || t == Camilla
    case Mute => t == Minidsp || t == Camilla
    case Unmute => t == Minidsp || t == Camilla
    case _ => true
  }

  lemma {:induction false} CanDoIff(t: DeviceType, op: Op)
    ensures op in AllOps() && (CanDo(t, op) <==> op in SupportedOps(t))
  {
    if op == Activate || op == LoadFilter || op == ClearFilter {
    } else {
      assert op in {LoadBiquads, SendCommands, SetGain, Mute, Unmute};
    }
  }

  /** Once started, a member of a mapped composite that has overrides has the slots, channels and volume adjustment they
      give, except for the slots of a device with only one, and skips what they say and what its class cannot do. Any
      other member has none of them and skips only what its class cannot do. */
  lemma {:induction false} SpecsFollowOverrides(cfg: Config, n: string, m: string)
    requires Starts(cfg) && IsComposite(cfg, n) && m in NamesOf(cfg, n)
    ensures m in cfg && cfg[m].Single? && cfg[m].kind.Known?
    ensures
      var spec, t := SpecsOf(cfg, n)[m], cfg[m].kind.t;
      if cfg[n].mode == Mapped && cfg[n].members.DictOf? && m in cfg[n].members.overrides then
        var o := cfg[n].members.overrides[m];
        && spec.channelMap == o.channelMap && spec.mvAdjust == o.mvAdjust
        && (t in {Minidsp, JRiver} ==> spec.slotMap == o.slotMap)
        && (t !in {Minidsp, JRiver} ==> spec.slotMap == [])
        && forall op :: op in spec.skipOps <==> op in o.skipOps || !CanDo(t, op)
      else
        && spec.channelMap == map[] && spec.mvAdjust == 0.0 && spec.slotMap == []
        && forall op :: op in spec.skipOps <==> !CanDo(t, op)
  {
    assert MembersAreRight(cfg, n);
    var t := cfg[m].kind.t;
    forall op: Op
      ensures op in AllOps() && (CanDo(t, op) <==> op in SupportedOps(t))
    {
      CanDoIff(t, op);
    }
  }

  // ---- no silent partial gain ----

  /** Mirror composites, and mapped ones that were not told to accept it. */
  predicate MustBalance(v: Values) { v.Group? && (v.mode == Mirror || (v.mode == Mapped && !v.allowPartialGain)) }

  lemma {:induction false} SkipsIff(cfg: Config, n: string, m: string, op: Op)
    requires IsComposite(cfg, n) && m in NamesOf(cfg, n) && KindOf(cfg, m).Known? && op in BALANCE_OPS
    requires cfg[n].mode == Mapped ==> cfg[n].members.DictOf?
    ensures cfg[n].mode == Mapped ==> (op in SpecsOf(cfg, n)[m].skipOps <==>
        !Supports(cfg, cfg[n].members.overrides, m, op))
    ensures cfg[n].mode != Mapped ==> (op in SpecsOf(cfg, n)[m].skipOps <==> op !in SupportedOps(KindOf(cfg, m).t))
  {
  }

  /** Once started, each of set_gain, mute and unmute is skipped by every member of such a composite or by none. */
  lemma {:induction false} BalanceIsAllOrNone(cfg: Config, n: string, op: Op)
    requires Starts(cfg) && IsComposite(cfg, n) && MustBalance(cfg[n]) && op in {SetGain, Mute, Unmute}
    ensures (forall m :: m in NamesOf(cfg, n) ==> op in SpecsOf(cfg, n)[m].skipOps)
         || (forall m :: m in NamesOf(cfg, n) ==> op !in SpecsOf(cfg, n)[m].skipOps)
  {
    var names := NamesOf(cfg, n);
    assert MembersAreRight(cfg, n) && ModeIsRight(cfg, n);
    forall m | m in names
      ensures KindOf(cfg, m).Known?
      ensures cfg[n].mode == Mapped ==> (op in SpecsOf(cfg, n)[m].skipOps <==>
          !Supports(cfg, cfg[n].members.overrides, m, op))
      ensures cfg[n].mode != Mapped ==> (op in SpecsOf(cfg, n)[m].skipOps <==> op !in SupportedOps(KindOf(cfg, m).t))
    {
      SkipsIff(cfg, n, m, op);
    }
    if cfg[n].mode == Mapped {
      assert AllOrNone(cfg, names, cfg[n].members.overrides, op);
    } else {
      forall m | m in names
        ensures KindOf(cfg, m) == KindOf(cfg, names[0])
      {
        var i :| 0 <= i < |names| && names[i] == m;
      }
    }
  }

  /** The composite as it fans out. */
  function SetupOf<D, C>(cfg: Config, n: string, drivers: Drivers<D, C>): Setup<D, C>
    requires IsComposite(cfg, n)
  {
    Setup(NamesOf(cfg, n), map m | m in NamesOf(cfg, n) :: TypeOf(cfg, m), SpecsOf(cfg, n), drivers)
  }

  lemma {:induction false} SetupIsValid<D, C>(cfg: Config, n: string, drivers: Drivers<D, C>)
    requires Starts(cfg) && IsComposite(cfg, n)
    ensures SetupOf(cfg, n, drivers).Valid()
  {
    assert MembersAreRight(cfg, n);
  }

  lemma {:induction false} AllTakePart<D, C>(s: Setup<D, C>, op: Op, k: nat)
    requires s.Valid() && k <= |s.names| && forall m :: m in s.names ==> op !in s.specs[m].skipOps
    ensures s.Participants(op, k) == s.names[..k]
  {
    if k > 0 { AllTakePart(s, op, k - 1); }
  }

  lemma {:induction false} NoneTakesPart<D, C>(s: Setup<D, C>, op: Op, k: nat)
    requires s.Valid() && k <= |s.names| && forall m :: m in s.names ==> op in s.specs[m].skipOps
    ensures s.Participants(op, k) == []
  {
    if k > 0 { NoneTakesPart(s, op, k - 1); }
  }

  /** So a gain or mute is dispatched to every member, in order, or to no one. */
  lemma {:induction false} NoSilentPartialGain<D, C>(cfg: Config, n: string, drivers: Drivers<D, C>, call: Call)
    requires Starts(cfg) && IsComposite(cfg, n) && MustBalance(cfg[n])
    requires call.CallSetGain? || call.CallMute? || call.CallUnmute?
    ensures var s := SetupOf(cfg, n, drivers);
      s.Valid() && (s.Participants(call.Op(), |s.names|) == s.names || s.Participants(call.Op(), |s.names|) == [])
  {
    var s := SetupOf(cfg, n, drivers);
    var k := |s.names|;
    SetupIsValid(cfg, n, drivers);
    BalanceIsAllOrNone(cfg, n, call.Op());
    if forall m :: m in s.names ==> call.Op() !in s.specs[m].skipOps {
      AllTakePart(s, call.Op(), k);
      assert s.names[..k] == s.names;
    } else {
      NoneTakesPart(s, call.Op(), k);
    }
  }

  /** No device is a member of two composites, and no composite is a member. */
  lemma {:induction false} MembersBelongOnce(cfg: Config, a: string, b: string, m: string)
    requires Starts(cfg) && IsComposite(cfg, a) && m in NamesOf(cfg, a)
    ensures m in cfg && cfg[m].Single?
    ensures IsComposite(cfg, b) && m in NamesOf(cfg, b) ==> a == b
  {
    assert MembersAreRight(cfg, a);
    assert IsComposite(cfg, b) && a != b ==> NothingShared(cfg, a, b);
  }

  /** A mapped composite given a list of members passes the check if it allows partial gain, and then cannot be
      built. */
  lemma {:induction false} ListedMembersNeverStart(cfg: Config, n: string)
    requires IsComposite(cfg, n) && cfg[n].mode == Mapped && cfg[n].members.ListOf?
    ensures !Starts(cfg)
    ensures !cfg[n].allowPartialGain ==> !Acceptable(cfg)
  {
    assert Acceptable(cfg) ==> ModeIsRight(cfg, n);
  }
}
