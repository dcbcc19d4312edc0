/** The get, modify, set exchange with a CamillaDSP server: one update at a time, over every run of events. */
module CamillaProtocol {
  import opened Common
  import opened CamillaConfig
  import opened CamillaGains
  import opened CamillaContents
  import opened CamillaReadback

  /** What an update does to the configuration it is given. */
  datatype Job = LoadJob(entry: Option<Entry>, gain: real) | GainJob(values: seq<Change>) {
    /** None is an exception. */
    function Create(base: Config, channels: seq<nat>): Option<Config> {
      match this
      case LoadJob(e, g) => Some(EntryConfig(e, base, channels, g, false))
      case GainJob(vs) => GainsConfig(vs, base)
    }
  }

  /** The update in progress; its configuration is there once the server has sent one. */
  datatype Updater = Updater(id: nat, job: Job, dspConfig: Option<Config>)

  /** The title of the slot: of an entry loaded in this run, or one of the fixed texts, or one left from an earlier
      run. */
  datatype Label = Named(entry: Entry) | Empty | Error | Loading | Clearing | Cached(text: string)

  datatype Request = GetConfig | SetConfig(cfg: Config)

  datatype Reply = GotConfig(cfg: Config) | GetFailed | SetReply(ok: bool)

  /** ezbeq's side: `accepted` counts the updates taken on, `completed` lists those whose callback ran, in order. */
  datatype Client = Client(config: Config, updater: Option<Updater>, title: Label, levels: seq<Reading>,
                           accepted: nat, completed: seq<nat>)

  // ---- the handlers, as values ----

  function Find(levels: seq<Reading>, id: int): (k: nat)
    ensures k <= |levels|
    ensures k < |levels| ==> levels[k].id == id
  {
    if levels == [] || levels[0].id == id then 0 else 1 + Find(levels[1..], id)
  }

  function SetLevel(r: Reading, v: Change): Reading {
    Reading(r.id, if v.gain.Some? then Num(v.gain.value) else r.gain,
            if v.mute.Some? then Flag(v.mute.value) else r.mute)
  }

  /** The levels a completed gain update shows, and whether every channel was found; it stops at the first that is
      not. */
  function ShowGains(levels: seq<Reading>, values: seq<Change>): (r: (seq<Reading>, bool))
    decreases values
  {
    if values == [] then (levels, true) else
    var v := values[0];
    var k := Find(levels, v.channel);
    if v.gain.None? && v.mute.None? then ShowGains(levels, values[1..])
    else if k == |levels| then (levels, false)
    else ShowGains(levels[k := SetLevel(levels[k], v)], values[1..])
  }

  function Reset(levels: seq<Reading>, gain: real): seq<Reading> {
    seq(|levels|, i requires 0 <= i < |levels| => Reading(levels[i].id, Num(gain), Flag(false)))
  }

  /** The callback of a finished update; false when it raised. */
  function Completed(c: Client, u: Updater, success: bool): (r: (Client, bool)) {
    var done := c.(completed := c.completed + [u.id]);
    match u.job
    case LoadJob(e, gain) =>
      if !success then (done.(title := Error), true)
      else (done.(title := if e.Some? then Named(e.value) else Empty, levels := Reset(c.levels, gain)), true)
    case GainJob(values) =>
      if !success then (done, true) else
      var (levels, found) := ShowGains(c.levels, values);
      (done.(levels := levels), found)
  }

  /** Taking over a configuration; false when reading its gains raised. */
  function Adopted(c: Client, cfg: Config, channels: seq<nat>): (r: (Client, bool)) {
    match LevelsShown(cfg, channels)
    case Unchanged => (c.(config := cfg), true)
    case KeyError => (c.(config := cfg), false)
    case Levels(rs) => (c.(config := cfg, levels := rs), true)
  }

  datatype Verdict = Accepted | Rejected

  function Asked(c: Client, job: Job, channels: seq<nat>): (r: (Client, seq<Request>, Verdict)) {
    var labelled := if job.LoadJob? then c.(title := if job.entry.Some? then Loading else Clearing) else c;
    if job.GainJob? && !(forall i :: 0 <= i < |job.values| ==> job.values[i].channel in channels) then (c, [], Rejected)
    else if c.updater.None? then
      (labelled.(updater := Some(Updater(c.accepted, job, None)), accepted := c.accepted + 1), [GetConfig], Accepted)
    else (if job.LoadJob? then c.(title := Error) else c, [], Rejected)
  }

  function GetReplied(c: Client, reply: Reply, channels: seq<nat>): (r: (Client, seq<Request>))
    requires reply.GotConfig? || reply.GetFailed?
  {
    if reply.GetFailed? then
      if c.updater.None? then (c, []) else (Completed(c, c.updater.value, false).0.(updater := None), [])
    else
      var (adopted, readable) := Adopted(c, reply.cfg, channels);
      if !readable || c.updater.None? then (adopted, []) else
      var u := c.updater.value;
      match u.job.Create(reply.cfg, channels)
      case None => (adopted.(updater := Some(u.(dspConfig := Some(reply.cfg)))), [])
      case Some(new') => (adopted.(updater := Some(u.(dspConfig := Some(new')))), [SetConfig(new')])
  }

  function SetReplied(c: Client, ok: bool, channels: seq<nat>): Client {
    if c.updater.None? then c else
    var u := c.updater.value;
    var (done, finished) := Completed(c, u, ok);
    if !ok then done.(updater := None)
    else if !finished || u.dspConfig.None? then done
    else
      var (adopted, readable) := Adopted(done, u.dspConfig.value, channels);
      if readable then adopted.(updater := None) else adopted
  }

  // ---- the handlers, as the object runs them ----

  class CamillaClient {
    var sent: seq<Request>

    method Send(r: Request)
      modifies this
      ensures sent == old(sent) + [r]
    {
      sent := sent + [r];
    }
  }

  class CamillaDsp {
    const channels: seq<nat>
    const client: CamillaClient
    var config: Config
    var updater: Option<Updater>
    var title: Label
    var levels: seq<Reading>
    var accepted: nat
    var completed: seq<nat>

    ghost function View(): Client
      reads this
    {
      Client(config, updater, title, levels, accepted, completed)
    }

    constructor (channels: seq<nat>, client: CamillaClient, config: Config, title: Label, levels: seq<Reading>)
      ensures this.channels == channels && this.client == client
      ensures View() == Client(config, None, title, levels, 0, [])
    {
      this.channels, this.client, this.config, this.title, this.levels := channels, client, config, title, levels;
      updater, accepted, completed := None, 0, [];
    }

    method RequestUpdate(job: Job) returns (verdict: Verdict)
      modifies this, client
      ensures (View(), verdict) == (Asked(old(View()), job, channels).0, Asked(old(View()), job, channels).2)
      ensures client.sent == old(client.sent) + Asked(old(View()), job, channels).1
    {
      if job.GainJob? && exists i :: 0 <= i < |job.values| && job.values[i].channel !in channels {
        return Rejected;
      }
      if job.LoadJob? {
        title := if job.entry.Some? then Loading else Clearing;
      }
      if updater.None? {
        updater := Some(Updater(accepted, job, None));
        accepted := accepted + 1;
        client.Send(GetConfig);
        return Accepted;
      }
      if job.LoadJob? {
        title := Error;
      }
      return Rejected;
    }

    /** The callback of the update in progress. */
    method RunCallback(success: bool) returns (finished: bool)
      requires updater.Some?
      modifies this
      ensures (View(), finished) == Completed(old(View()), old(updater.value), success)
    {
      completed := completed + [updater.value.id];
      match updater.value.job
      case LoadJob(e, gain) =>
        if success {
          title := if e.Some? then Named(e.value) else Empty;
          levels := Reset(levels, gain);
        } else {
          title := Error;
        }
        return true;
      case GainJob(values) =>
        if success {
          finished := UpdateLevels(values);
        } else {
          finished := true;
        }
    }

    method UpdateLevels(values: seq<Change>) returns (found: bool)
      modifies this`levels
      ensures (levels, found) == ShowGains(old(levels), values)
    {
      for i := 0 to |values|
        invariant ShowGains(levels, values[i..]) == ShowGains(old(levels), values)
      {
        var v := values[i];
        assert values[i..][1..] == values[i + 1..];
        if v.gain.Some? || v.mute.Some? {
          var k := Find(levels, v.channel);
          if k == |levels| { return false; }
          levels := levels[k := SetLevel(levels[k], v)];
        }
      }
      return true;
    }

    /** The setter of the current configuration. */
    method Adopt(cfg: Config) returns (readable: bool)
      modifies this
      ensures (View(), readable) == Adopted(old(View()), cfg, channels)
    {
      config := cfg;
      var shown := ShowLevels(cfg, channels);
      if shown.Levels? { levels := shown.rs; }
      return !shown.KeyError?;
    }

    method CreateConfig(job: Job, base: Config) returns (cfg: Option<Config>)
      ensures cfg == job.Create(base, channels)
    {
      match job
      case LoadJob(e, gain) =>
        var made := CreateCfgForEntry(e, base, channels, gain, false);
        return Some(made);
      case GainJob(values) => cfg := CreateCfgForGains(values, base);
    }

    method OnGetConfig(reply: Reply)
      requires reply.GotConfig? || reply.GetFailed?
      modifies this, client
      ensures View() == GetReplied(old(View()), reply, channels).0
      ensures client.sent == old(client.sent) + GetReplied(old(View()), reply, channels).1
    {
      if reply.GetFailed? {
        if updater.Some? {
          var _ := RunCallback(false);
          updater := None;
        }
        return;
      }
      var readable := Adopt(reply.cfg);
      if !readable || updater.None? { return; }
      updater := Some(updater.value.(dspConfig := Some(reply.cfg)));
      var cfg := CreateConfig(updater.value.job, reply.cfg);
      if cfg.None? { return; }
      updater := Some(updater.value.(dspConfig := cfg));
      client.Send(SetConfig(cfg.value));
    }

    method OnSetConfig(ok: bool)
      modifies this
      ensures View() == SetReplied(old(View()), ok, channels)
    {
      if updater.None? { return; }
      var finished := RunCallback(ok);
      if !ok {
        updater := None;
        return;
      }
      if !finished || updater.value.dspConfig.None? { return; }
      var readable := Adopt(updater.value.dspConfig.value);
      if readable { updater := None; }
    }
  }

  // ---- the client, the server and the two queues between them ----

  datatype System = System(client: Client, toServer: seq<Request>, toClient: seq<Reply>, device: Config)

  /** A request from a user, the server answering its next message well or badly, or a reply reaching the client. */
  datatype Event = Ask(job: Job) | Serve(ok: bool) | Deliver

  function Served(s: System, ok: bool): System
    requires s.toServer != []
  {
    match s.toServer[0]
    case GetConfig => s.(toServer := s.toServer[1..],
        toClient := s.toClient + [if ok then GotConfig(s.device) else GetFailed])
    case SetConfig(cfg) =>
      s.(toServer := s.toServer[1..], toClient := s.toClient + [SetReply(ok)], device := if ok then cfg else s.device)
  }

  function Delivered(s: System, channels: seq<nat>): System
    requires s.toClient != []
  {
    var rest := s.(toClient := s.toClient[1..]);
    match s.toClient[0]
    case SetReply(ok) => rest.(client := SetReplied(s.client, ok, channels))
    case reply =>
      var (c, sends) := GetReplied(s.client, reply, channels);
      rest.(client := c, toServer := s.toServer + sends)
  }

  function Step(s: System, e: Event, channels: seq<nat>): System {
    match e
    case Ask(job) =>
      var (c, sends, _) := Asked(s.client, job, channels);
      s.(client := c, toServer := s.toServer + sends)
    case Serve(ok) => if s.toServer == [] then s else Served(s, ok)
    case Deliver => if s.toClient == [] then s else Delivered(s, channels)
  }

  function Run(s: System, events: seq<Event>, channels: seq<nat>): System {
    if events == [] then s else Step(Run(s, events[..|events| - 1], channels), events[|events| - 1], channels)
  }

  // ---- the invariant ----

  /** Where the update in progress has got to. A stalled one has raised and will never be cleared. */
  datatype Phase = Idle | Getting | Got | Setting | Set | Stalled

  ghost predicate InPhase(s: System, p: Phase, channels: seq<nat>) {
    match p
    case Idle => s.client.updater.None? && s.toServer == [] && s.toClient == []
    case Getting => s.client.updater.Some? && s.client.updater.value.dspConfig.None? && s.toServer == [GetConfig]
        && s.toClient == []
    case Got =>
      s.client.updater.Some? && s.client.updater.value.dspConfig.None? && s.toServer == [] &&
      (s.toClient == [GotConfig(s.device)] || s.toClient == [GetFailed])
    case Setting =>
      s.client.updater.Some? && s.client.updater.value.dspConfig.Some? && s.toClient == [] &&
      s.toServer == [SetConfig(s.client.updater.value.dspConfig.value)] &&
      s.client.updater.value.dspConfig == s.client.updater.value.job.Create(s.device, channels)
    case Set =>
      s.client.updater.Some? && s.client.updater.value.dspConfig.Some? && s.toServer == [] &&
      (s.toClient == [SetReply(false)] ||
       (s.toClient == [SetReply(true)] && s.client.updater.value.dspConfig.value == s.device))
    case Stalled => s.client.updater.Some? && s.toServer == [] && s.toClient == []
  }

  ghost predicate IdsInOrder(c: Client) {
    && (forall i, j :: 0 <= i < j < |c.completed| ==> c.completed[i] < c.completed[j])
    && (forall i :: 0 <= i < |c.completed| ==> c.completed[i] < c.accepted)
    && (c.updater.Some? ==> c.updater.value.id == c.accepted - 1)
  }

  /** A load that has been applied but not yet reported. */
  ghost predicate LoadApplied(s: System) {
    s.client.updater.Some? && s.toClient == [SetReply(true)] && s.client.updater.value.job.LoadJob? ==>
      match s.client.updater.value.job.entry case Some(e) => HoldsEntry(s.device, e) case None => true
  }

  ghost predicate Invariant(s: System, p: Phase, channels: seq<nat>) {
    && InPhase(s, p, channels) && IdsInOrder(s.client) && LoadApplied(s)
    && (p != Stalled && s.client.updater.Some? ==> s.client.updater.value.id !in s.client.completed)
    && (s.client.title.Named? ==> HoldsEntry(s.device, s.client.title.entry))
    && (s.client.updater.Some? && s.client.updater.value.job.LoadJob? && p != Stalled ==> !s.client.title.Named?)
    && (s.client.updater.Some? && s.client.updater.value.job.GainJob? ==>
        Distinct(Channels(s.client.updater.value.job.values)))
  }
}
