/** Which members of a started composite carry out a call, by what the configuration says of them. */
module StartupCalls {
  import opened Common
  import opened Composite
  import opened CompositeTheorems
  import opened Validation
  import opened Startup

  /** What a member's overrides tell it to skip; only a mapped composite has overrides. */
  function ToSkip(v: Values, m: string): set<Op> {
    if v.Group? && v.mode == Mapped && v.members.DictOf? && m in v.members.overrides then v.members.overrides[m].skipOps
    else {}
  }

  /** Whether a member carries out a call: every device takes entries, clears and switches of slot, only a minidsp takes
      biquads and raw commands, only a minidsp and a CamillaDSP take levels; and none what it is told to skip. */
  predicate CarriesOut(t: DeviceType, skip: set<Op>, call: Call) {
    match call
    case CallActivate(_) => Activate !in skip
    case CallLoadFilter(_, _, _) => LoadFilter !in skip
    case CallClearFilter(_) => ClearFilter !in skip
    case CallLoadBiquads(_, _, _, _, _) => t == Minidsp && LoadBiquads !in skip
    case CallSendCommands(_, _, _, _) => t == Minidsp && SendCommands !in skip
    case CallMute(_, _) => (t == Minidsp || t == Camilla) && Mute !in skip
    case CallUnmute(_, _) => (t == Minidsp || t == Camilla) && Unmute !in skip
    case CallSetGain(_, _, _) => (t == Minidsp || t == Camilla) && SetGain !in skip
  }

  lemma {:induction false} SkipsUnless(cfg: Config, n: string, m: string, call: Call)
    requires Starts(cfg) && IsComposite(cfg, n) && m in NamesOf(cfg, n)
    ensures m in cfg && cfg[m].Single? && cfg[m].kind.Known?
    ensures call.Op() in SpecsOf(cfg, n)[m].skipOps <==> !CarriesOut(cfg[m].kind.t, ToSkip(cfg[n], m), call)
  {
    SpecsFollowOverrides(cfg, n, m);
  }

  /** Once started, a composite passes a call on to exactly the members that carry it out, once each. */
  lemma {:induction false} CallReachesIff<D, C>(cfg: Config, n: string, drivers: Drivers<D, C>, call: Call, m: string)
    requires Starts(cfg) && IsComposite(cfg, n) && m in NamesOf(cfg, n)
    ensures m in cfg && cfg[m].Single? && cfg[m].kind.Known?
    ensures
      var s := SetupOf(cfg, n, drivers);
      && s.Valid() && Distinct(s.Participants(call.Op(), |s.names|))
      && (m in s.Participants(call.Op(), |s.names|) <==> CarriesOut(cfg[m].kind.t, ToSkip(cfg[n], m), call))
  {
    var s := SetupOf(cfg, n, drivers);
    SetupIsValid(cfg, n, drivers);
    ParticipantsAre(s, call.Op(), |s.names|);
    assert s.names[..|s.names|] == s.names;
    SkipsUnless(cfg, n, m, call);
  }
}
