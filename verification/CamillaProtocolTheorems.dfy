/** Every run of the CamillaDSP exchange keeps its invariant, and what that invariant promises. */
module CamillaProtocolTheorems {
  import opened Common
  import opened CamillaGains
  import opened CamillaContents
  import opened CamillaReadback
  import opened CamillaProtocol

  /** Requests carry a dictionary, so no channel twice. */
  ghost predicate WellFormed(e: Event) {
    e.Ask? && e.job.GainJob? ==> Distinct(Channels(e.job.values))
  }

  function NextPhase(s: System, p: Phase, e: Event, channels: seq<nat>): Phase {
    match e
    case Ask(job) => if Asked(s.client, job, channels).2.Accepted? then Getting else p
    case Serve(_) => if p.Getting? then Got else if p.Setting? then Set else p
    case Deliver =>
      if s.toClient == [] then p
      else if Delivered(s, channels).client.updater.None? then Idle
      else if Delivered(s, channels).toServer != [] then Setting else Stalled
  }

  lemma {:induction false} AskKeeps(s: System, p: Phase, job: Job, channels: seq<nat>)
    requires Invariant(s, p, channels) && WellFormed(Ask(job))
    ensures Invariant(Step(s, Ask(job), channels), NextPhase(s, p, Ask(job), channels), channels)
  {
    EmptyLast(s.toServer);
  }

  lemma {:induction false} ServeKeeps(s: System, p: Phase, ok: bool, channels: seq<nat>)
    requires Invariant(s, p, channels)
    ensures Invariant(Step(s, Serve(ok), channels), NextPhase(s, p, Serve(ok), channels), channels)
  {
    if p.Setting? && ok {
      var u := s.client.updater.value;
      match u.job
      case LoadJob(e, gain) => LoadWritesEntry(e, s.device, channels, gain, false);
      case GainJob(values) => if s.client.title.Named? { GainsKeepEntry(s.client.title.entry, s.device, values); }
    }
  }

  lemma {:induction false} GetFailedKeeps(s: System, channels: seq<nat>)
    requires Invariant(s, Got, channels) && s.toClient == [GetFailed]
    ensures Invariant(Step(s, Deliver, channels), NextPhase(s, Got, Deliver, channels), channels)
  {
    assert s.toClient[1..] == [];
  }

  lemma {:induction false} GotConfigKeeps(s: System, channels: seq<nat>)
    requires Invariant(s, Got, channels) && s.toClient == [GotConfig(s.device)]
    ensures Invariant(Step(s, Deliver, channels), NextPhase(s, Got, Deliver, channels), channels)
  {
    assert s.toClient[1..] == [];
  }

  lemma {:induction false} SetFailedKeeps(s: System, channels: seq<nat>)
    requires Invariant(s, Set, channels) && s.toClient == [SetReply(false)]
    ensures Invariant(Step(s, Deliver, channels), NextPhase(s, Set, Deliver, channels), channels)
  {
    assert s.toClient[1..] == [];
  }

  lemma {:induction false} SetDoneKeeps(s: System, channels: seq<nat>)
    requires Invariant(s, Set, channels) && s.toClient == [SetReply(true)]
    ensures Invariant(Step(s, Deliver, channels), NextPhase(s, Set, Deliver, channels), channels)
  {
    assert s.toClient[1..] == [];
  }

  lemma {:induction false} DeliverKeeps(s: System, p: Phase, channels: seq<nat>)
    requires Invariant(s, p, channels)
    ensures Invariant(Step(s, Deliver, channels), NextPhase(s, p, Deliver, channels), channels)
  {
    if p.Got? {
      if s.toClient == [GetFailed] { GetFailedKeeps(s, channels); } else { GotConfigKeeps(s, channels); }
    } else if p.Set? {
      if s.toClient == [SetReply(false)] { SetFailedKeeps(s, channels); } else { SetDoneKeeps(s, channels); }
    }
  }

  lemma {:induction false} StepKeeps(s: System, p: Phase, e: Event, channels: seq<nat>)
    requires Invariant(s, p, channels) && WellFormed(e)
    ensures Invariant(Step(s, e, channels), NextPhase(s, p, e, channels), channels)
  {
    match e
    case Ask(job) => AskKeeps(s, p, job, channels);
    case Serve(ok) => ServeKeeps(s, p, ok, channels);
    case Deliver => DeliverKeeps(s, p, channels);
  }

  /** Connected and quiescent: nothing in the queues, nothing in progress, no entry loaded in this run. */
  ghost predicate Quiescent(s: System) {
    && s.toServer == [] && s.toClient == [] && s.client.updater.None? && !s.client.title.Named?
    && s.client.accepted == 0 && s.client.completed == []
  }

  lemma {:induction false} RunKeeps(s: System, events: seq<Event>, channels: seq<nat>) returns (p: Phase)
    requires Quiescent(s) && forall i :: 0 <= i < |events| ==> WellFormed(events[i])
    ensures Invariant(Run(s, events, channels), p, channels)
  {
    if events == [] {
      p := Idle;
    } else {
      var n := |events| - 1;
      var q := RunKeeps(s, events[..n], channels);
      StepKeeps(Run(s, events[..n], channels), q, events[n], channels);
      p := NextPhase(Run(s, events[..n], channels), q, events[n], channels);
    }
  }

  /** After any run: at most one message is anywhere; a configuration about to be applied was made from the one the
      device still holds; every accepted update completes at most once; and a slot that names an entry loaded in this
      run is right about the device's BEQ filters, idle or not. */
  lemma {:induction false} ExchangeIsSafe(s: System, events: seq<Event>, channels: seq<nat>)
    requires Quiescent(s) && forall i :: 0 <= i < |events| ==> WellFormed(events[i])
    ensures
      var r := Run(s, events, channels);
      && |r.toServer| + |r.toClient| <= 1
      && (r.client.updater.None? ==> r.toServer == [] && r.toClient == [])
      && (r.toServer != [] && r.toServer[0].SetConfig? ==>
            r.client.updater.Some? && r.client.updater.value.job.Create(r.device, channels) == Some(r.toServer[0].cfg))
      && |r.client.completed| <= r.client.accepted
      && Distinct(r.client.completed)
      && (r.client.title.Named? ==> HoldsEntry(r.device, r.client.title.entry))
  {
    var p := RunKeeps(s, events, channels);
    var r := Run(s, events, channels);
    IncreasingIsShort(r.client.completed, r.client.accepted);
  }

  lemma {:induction false} IncreasingIsShort(ids: seq<nat>, bound: nat)
    requires forall i, j :: 0 <= i < j < |ids| ==> ids[i] < ids[j]
    requires forall i :: 0 <= i < |ids| ==> ids[i] < bound
    ensures |ids| <= bound
  {
    if ids != [] {
      var n := |ids| - 1;
      IncreasingIsShort(ids[..n], ids[n]);
    }
  }

  /** While an update is in progress a further request is refused: no message is sent and the update goes on
      untouched. */
  lemma {:induction false} SecondRequestIsRejected(s: System, job: Job, channels: seq<nat>)
    requires s.client.updater.Some?
    ensures
      var r := Step(s, Ask(job), channels);
      && Asked(s.client, job, channels).2.Rejected?
      && r == s.(client := s.client.(title := r.client.title))
          && (r.client.title == s.client.title || r.client.title == Error)
  {
    EmptyLast(s.toServer);
  }

  // ---- updates that never end ----

  /** A reply whose handling raises: gains that cannot be read, a configuration that cannot be made, or a channel whose
      level is not shown. */
  ghost predicate Raises(s: System, channels: seq<nat>) {
    s.client.updater.Some? && s.toClient != [] &&
    match s.toClient[0]
    case GotConfig(cfg) => LevelsShown(cfg, channels).KeyError?
        || s.client.updater.value.job.Create(cfg, channels).None?
    case GetFailed => false
    case SetReply(ok) =>
      ok && (LevelsShown(s.device, channels).KeyError? || !Completed(s.client, s.client.updater.value, true).1)
  }

  /** An update stalls exactly when the handling of its reply raises. */
  lemma {:induction false} StallsIffRaises(s: System, p: Phase, e: Event, channels: seq<nat>)
    requires Invariant(s, p, channels) && p != Stalled && WellFormed(e)
    ensures NextPhase(s, p, e, channels) == Stalled <==> e.Deliver? && Raises(s, channels)
  {
  }

  /** Once stalled, always stalled: every later request is refused and no message is ever sent again. */
  lemma {:induction false} StalledForEver(s: System, events: seq<Event>, channels: seq<nat>)
    requires Invariant(s, Stalled, channels)
    ensures
      var r := Run(s, events, channels);
      r.client.updater == s.client.updater && r.toServer == [] && r.toClient == [] && r.device == s.device
  {
    if events != [] { StalledForEver(s, events[..|events| - 1], channels); }
  }
}
