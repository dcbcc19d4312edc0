/** A composite device: one command fanned out to several members in parallel, best effort. */
module Composite {
  import opened Common

  datatype Op = Activate | LoadFilter | ClearFilter | LoadBiquads | SendCommands | Mute | Unmute | SetGain

  datatype DeviceType = Minidsp | Htp1 | StormAudio | JRiver | Qsys | Camilla | Reaper

  function SupportedOps(t: DeviceType): set<Op> {
    match t
    case Minidsp => {Activate, LoadFilter, ClearFilter, LoadBiquads, SendCommands, Mute, Unmute, SetGain}
    case Camilla => {Activate, LoadFilter, ClearFilter, Mute, Unmute, SetGain}
    case _ => {Activate, LoadFilter, ClearFilter}
  }

  /** The slot of a device with only one. */
  function FixedSlotId(t: DeviceType): Option<string> {
    match t
    case Minidsp => None
    case JRiver => None
    case Htp1 => Some("HTP1")
    case StormAudio => Some("StormAudio")
    case Qsys => Some("QSYS")
    case Camilla => Some("CamillaDSP")
    case Reaper => Some("REAPER")
  }

  // ---- configuration ----

  /** The items of a dict, in order. */
  function Dict<K, V>(items: seq<(K, V)>): map<K, V> {
    if items == [] then map[] else Dict(items[..|items| - 1])[items[|items| - 1].0 := items[|items| - 1].1]
  }

  /** A member's overrides; a channel maps to the integer its value denotes, None when it denotes none. */
  datatype Override = Override(slotMap: seq<(string, string)>, channelMap: map<int, Option<int>>, skipOps: set<Op>,
      mvAdjust: real)

  const NO_OVERRIDE := Override([], map[], {}, 0.0)

  datatype MemberSpec = MemberSpec(slotMap: seq<(string, string)>, channelMap: map<int, Option<int>>, skipOps: set<Op>,
      mvAdjust: real) {
    function InverseSlotMap(): map<string, string> {
      Dict(seq(|slotMap|, i requires 0 <= i < |slotMap| => (slotMap[i].1, slotMap[i].0)))
    }
  }

  function AllOps(): set<Op> { {Activate, LoadFilter, ClearFilter, LoadBiquads, SendCommands, Mute, Unmute, SetGain} }

  /** A member's rules: what its class cannot do is always skipped, and overrides are only read in mapped mode. */
  function SpecOf(t: DeviceType, mapped: bool, overrides: map<string, Override>, name: string): MemberSpec {
    var o := if mapped && name in overrides then overrides[name] else NO_OVERRIDE;
    MemberSpec(if FixedSlotId(t).Some? then [] else o.slotMap, o.channelMap, (AllOps() - SupportedOps(t)) + o.skipOps,
        o.mvAdjust)
  }

  method BuildSpecs(names: seq<string>, types: map<string, DeviceType>, mapped: bool, overrides: map<string, Override>)
    returns (specs: map<string, MemberSpec>)
    requires forall i :: 0 <= i < |names| ==> names[i] in types
    ensures specs == map n | n in names && n in types :: SpecOf(types[n], mapped, overrides, n)
  {
    specs := map[];
    for i := 0 to |names|
      invariant specs == map n | n in names[..i] && n in types :: SpecOf(types[n], mapped, overrides, n)
    {
      var n := names[i];
      assert names[..i + 1] == names[..i] + [n];
      var dev, o := types[n], if mapped && n in overrides then overrides[n] else NO_OVERRIDE;
      var autoSkip := AllOps() - SupportedOps(dev);
      var slotMap := if FixedSlotId(dev).Some? then [] else o.slotMap;
      specs := specs[n := MemberSpec(slotMap, o.channelMap, autoSkip + o.skipOps, o.mvAdjust)];
    }
    assert names[..|names|] == names;
  }

  // ---- translation ----

  /** A catalogue entry by its digest, with its own volume adjustment. */
  datatype Entry = Entry(digest: string, mvAdjust: real)

  datatype Call =
    | CallActivate(slot: Option<string>)
    | CallLoadFilter(slot: Option<string>, entry: Entry, mv: real)
    | CallClearFilter(slot: Option<string>)
    | CallLoadBiquads(slot: Option<string>, overwrite: bool, inputs: seq<int>, outputs: seq<int>, payload: seq<string>)
    | CallSendCommands(slot: Option<string>, inputs: seq<int>, outputs: seq<int>, payload: seq<string>)
    | CallMute(slot: Option<string>, channel: Option<int>)
    | CallUnmute(slot: Option<string>, channel: Option<int>)
    | CallSetGain(slot: Option<string>, channel: Option<int>, gain: real)
  {
    function Op(): Op {
      match this
      case CallActivate(_) => Activate
      case CallLoadFilter(_, _, _) => LoadFilter
      case CallClearFilter(_) => ClearFilter
      case CallLoadBiquads(_, _, _, _, _) => LoadBiquads
      case CallSendCommands(_, _, _, _) => SendCommands
      case CallMute(_, _) => Mute
      case CallUnmute(_, _) => Unmute
      case CallSetGain(_, _, _) => SetGain
    }
  }

  function TranslateSlot(t: DeviceType, spec: MemberSpec, slot: Option<string>): Option<string> {
    if slot.None? then None
    else if FixedSlotId(t).Some? then FixedSlotId(t)
    else if slot.value in Dict(spec.slotMap) then Some(Dict(spec.slotMap)[slot.value])
    else slot
  }

  /** Err is int() raising on what the channel maps to. */
  function TranslateChannel(spec: MemberSpec, channel: Option<int>): Result<Option<int>, string> {
    if channel.None? || channel.value !in spec.channelMap then Ok(channel)
    else if spec.channelMap[channel.value].None? then Err("invalid literal for int()")
    else Ok(spec.channelMap[channel.value])
  }

  function TranslateChannels(spec: MemberSpec, channels: seq<int>): Result<seq<int>, string> {
    if channels == [] then Ok([]) else
    match TranslateChannel(spec, Some(channels[0]))
    case Err(e) => Err(e)
    case Ok(first) =>
      match TranslateChannels(spec, channels[1..])
      case Err(e) => Err(e)
      case Ok(rest) => Ok([if first.Some? then first.value else channels[0]] + rest)
  }

  /** What a member is asked to do for a call on the composite. */
  function Translate(t: DeviceType, spec: MemberSpec, call: Call): Result<Call, string> {
    var slot := TranslateSlot(t, spec, call.slot);
    match call
    case CallActivate(_) => Ok(CallActivate(slot))
    case CallLoadFilter(_, entry, mv) => Ok(CallLoadFilter(slot, entry.(mvAdjust := entry.mvAdjust + spec.mvAdjust),
        mv))
    case CallClearFilter(_) => Ok(CallClearFilter(slot))
    case CallLoadBiquads(_, overwrite, inputs, outputs, payload) =>
      var ins, outs := TranslateChannels(spec, inputs), TranslateChannels(spec, outputs);
      if ins.Err? then Err(ins.error) else if outs.Err? then Err(outs.error)
      else Ok(CallLoadBiquads(slot, overwrite, ins.value, outs.value, payload))
    case CallSendCommands(_, inputs, outputs, payload) =>
      var ins, outs := TranslateChannels(spec, inputs), TranslateChannels(spec, outputs);
      if ins.Err? then Err(ins.error) else if outs.Err? then Err(outs.error)
      else Ok(CallSendCommands(slot, ins.value, outs.value, payload))
    case CallMute(_, channel) =>
      var c := TranslateChannel(spec, channel);
      if c.Err? then Err(c.error) else Ok(CallMute(slot, c.value))
    case CallUnmute(_, channel) =>
      var c := TranslateChannel(spec, channel);
      if c.Err? then Err(c.error) else Ok(CallUnmute(slot, c.value))
    case CallSetGain(_, channel, gain) =>
      var c := TranslateChannel(spec, channel);
      if c.Err? then Err(c.error) else Ok(CallSetGain(slot, c.value, gain))
  }

  /** The slot id the composite shows for one of a member's own. */
  function DisplaySlot(spec: MemberSpec, id: string): string {
    if id in spec.InverseSlotMap() then spec.InverseSlotMap()[id] else id
  }

  // ---- members at work: tasks on a thread pool ----

  /** How a member carries out an operation: the commands it sends, each changing the device and possibly raising. */
  datatype Drivers<!D, !C> = Drivers(plan: (string, Call) -> seq<C>, exec: (C, D) -> (D, Option<string>))

  datatype Status<C> = Running(todo: seq<C>) | Finished | Raised(error: string)

  datatype Task<C> = Task(member: string, status: Status<C>)

  datatype World<D, C> = World(devices: map<string, D>, tasks: seq<Task<C>>)

  /** One command of one task. */
  function StepTask<D, C>(drivers: Drivers<D, C>, w: World<D, C>, i: nat): (r: World<D, C>)
    ensures |r.tasks| == |w.tasks|
  {
    if i >= |w.tasks| || !w.tasks[i].status.Running? || w.tasks[i].member !in w.devices then w else
    var Task(n, Running(todo)) := w.tasks[i];
    if todo == [] then w.(tasks := w.tasks[i := Task(n, Finished)]) else
    var (d, error) := drivers.exec(todo[0], w.devices[n]);
    World(w.devices[n := d], w.tasks[i := Task(n, if error.Some? then Raised(error.value) else Running(todo[1..]))])
  }

  /** The tasks advance in any order. */
  function Run<D, C>(drivers: Drivers<D, C>, w: World<D, C>, schedule: seq<nat>): (r: World<D, C>)
    ensures |r.tasks| == |w.tasks|
    decreases |schedule|
  {
    if schedule == [] then w else Run(drivers, StepTask(drivers, w, schedule[0]), schedule[1..])
  }

  // ---- fan-out ----

  datatype Setup<!D, !C> = Setup(names: seq<string>, types: map<string, DeviceType>, specs: map<string, MemberSpec>,
      drivers: Drivers<D, C>) {
    predicate Valid() {
      && Distinct(names)
      && (forall i :: 0 <= i < |names| ==> names[i] in types && names[i] in specs)
    }

    /** The task submitted for a member. */
    function NewTask(call: Call, n: string): Task<C>
      requires n in types && n in specs
    {
      var c := Translate(types[n], specs[n], call);
      Task(n, if c.Err? then Raised(c.error) else Running(drivers.plan(n, c.value)))
    }

    /** The first k members that have not opted out of the operation. */
    function Participants(op: Op, k: nat): (r: seq<string>)
      requires Valid() && k <= |names|
      ensures forall i :: 0 <= i < |r| ==> r[i] in types && r[i] in specs
    {
      if k == 0 then [] else Participants(op, k - 1) + if op in specs[names[k - 1]].skipOps then [] else [names[k - 1]]
    }

    /** The world with a task submitted for each of the members. */
    function Submitted(call: Call, ns: seq<string>, w: World<D, C>): World<D, C>
      requires forall i :: 0 <= i < |ns| ==> ns[i] in types && ns[i] in specs
    {
      w.(tasks := w.tasks + seq(|ns|, i requires 0 <= i < |ns| => NewTask(call, ns[i])))
    }
  }

  /** What wait() left in the first k futures, the i-th of which is task `first + i`. */
  function Errors<D, C>(w: World<D, C>, first: nat, k: nat): seq<(string, string)>
    requires first + k <= |w.tasks|
  {
    if k == 0 then [] else
    var Task(n, status) := w.tasks[first + k - 1];
    Errors(w, first, k - 1) +
    match status
    case Running(_) => [(n, "no response")]
    case Raised(e) => [(n, e)]
    case Finished => []
  }

  /** What the composite holds of a member: a reference to its state object, which shows whatever the member makes of it
      in place, or to one the member has since replaced, which stays as it was then. */
  datatype Seen<D> = Live | Frozen(state: D)

  /** The state objects handed over by the members that answer a read. */
  function Observed<D, C>(w: World<D, C>, names: seq<string>, readable: set<string>): map<string, Seen<D>> {
    map n | n in names && n in readable && n in w.devices :: Live
  }

  /** The states the composite shows. */
  function Shown<D, C>(w: World<D, C>, seen: map<string, Seen<D>>): map<string, D> {
    map n | n in seen && (seen[n].Live? ==> n in w.devices) :: if seen[n].Live? then w.devices[n] else seen[n].state
  }

  /** What happens to a composite: a command, or a request for its state; or, beside it, members whose states change in
      place, by a command of their own or by a read that takes over what the hardware says, and members that replace
      their state object, as a refresh does. `schedule` is what the tasks do until wait() returns, `meanwhile` what they
      do until the states are read, `readable` the members that answer. */
  datatype Round<D> =
    | Command(call: Call, schedule: seq<nat>, meanwhile: seq<nat>, readable: set<string>)
    | State(meanwhile: seq<nat>, readable: set<string>)
    | Changed(states: map<string, D>)
    | Replaced(states: map<string, D>)
  {
    /** The members that answer the read a round ends with. */
    function Answering(): set<string> { if Command? || State? then readable else {} }
  }

  function Overlaid<D>(devices: map<string, D>, states: map<string, D>): map<string, D> {
    map n | n in devices :: if n in states then states[n] else devices[n]
  }

  /** The world when a round's states are read. */
  function AfterRound<D, C>(s: Setup<D, C>, w: World<D, C>, r: Round<D>): World<D, C>
    requires s.Valid()
  {
    match r
    case Command(call, schedule, meanwhile, _) =>
      Run(s.drivers, Run(s.drivers, s.Submitted(call, s.Participants(call.Op(), |s.names|), w), schedule), meanwhile)
    case State(meanwhile, _) => Run(s.drivers, w, meanwhile)
    case Changed(states) => w.(devices := Overlaid(w.devices, states))
    case Replaced(states) => w.(devices := Overlaid(w.devices, states))
  }

  /** The references to objects that a round leaves behind; `w` is the world before it. */
  function Kept<D, C>(w: World<D, C>, seen: map<string, Seen<D>>, r: Round<D>): map<string, Seen<D>> {
    map n | n in seen ::
      if r.Replaced? && n in r.states && n in w.devices && seen[n].Live? then Frozen(w.devices[n]) else seen[n]
  }

  /** What the composite holds after a round; `w` is the world before it, `after` the one after it. */
  function SeenAfter<D, C>(
      w: World<D, C>, after: World<D, C>, names: seq<string>, seen: map<string, Seen<D>>, r: Round<D>)
      : map<string, Seen<D>>
  {
    Kept(w, seen, r) + Observed(after, names, r.Answering())
  }

  lemma {:induction false} NothingIsReplaced<D, C>(
      w: World<D, C>, after: World<D, C>, names: seq<string>, seen: map<string, Seen<D>>, r: Round<D>)
    ensures !r.Replaced? ==> SeenAfter(w, after, names, seen, r) == seen + Observed(after, names, r.Answering())
    ensures r.Answering() == {} ==> SeenAfter(w, after, names, seen, r) == Kept(w, seen, r)
  {
    if !r.Replaced? { assert Kept(w, seen, r) == seen; }
    if r.Answering() == {} { assert Observed(after, names, r.Answering()) == map[]; }
  }

  /** A run of a composite: the members that answered when it was made, what happened, and the world before, between and
      after. */
  datatype Trace<D, C> = Trace(first: set<string>, worlds: seq<World<D, C>>, rounds: seq<Round<D>>) {
    predicate Shaped() { |worlds| == |rounds| + 1 }

    function Add(w: World<D, C>, r: Round<D>): Trace<D, C> { Trace(first, worlds + [w], rounds + [r]) }
  }

  /** Each world is the one before it after the round in between. */
  ghost predicate Happens<D, C>(s: Setup<D, C>, t: Trace<D, C>) {
    s.Valid() && t.Shaped() && forall i :: 0 <= i < |t.rounds| ==> Follows(s, t.worlds[i], t.rounds[i], t.worlds[i + 1])
  }

  ghost predicate Follows<D, C>(s: Setup<D, C>, w: World<D, C>, r: Round<D>, after: World<D, C>)
    requires s.Valid()
  {
    after == AfterRound(s, w, r)
  }

  /** What the composite holds after the first m rounds. */
  function SeenAt<D, C>(t: Trace<D, C>, names: seq<string>, m: nat): map<string, Seen<D>>
    requires t.Shaped() && m <= |t.rounds|
  {
    if m == 0 then Observed(t.worlds[0], names, t.first)
    else SeenAfter(t.worlds[m - 1], t.worlds[m], names, SeenAt(t, names, m - 1), t.rounds[m - 1])
  }

  /** A later round changes nothing about the earlier ones. */
  lemma {:induction false} EarlierRounds<D, C>(
      t: Trace<D, C>, names: seq<string>, w: World<D, C>, r: Round<D>, m: nat)
    requires t.Shaped() && m <= |t.rounds|
    ensures SeenAt(t.Add(w, r), names, m) == SeenAt(t, names, m)
  {
    if m > 0 { EarlierRounds(t, names, w, r, m - 1); }
  }

  class CompositeDevice<!D, !C> {
    const setup: Setup<D, C>
    var world: World<D, C>
    var memberStates: map<string, Seen<D>>
    /** What happened so far. */
    ghost var trace: Trace<D, C>

    /** What is held is what the whole run has handed over. */
    ghost predicate Valid()
      reads this
    {
      && Happens(setup, trace)
      && world == trace.worlds[|trace.rounds|]
      && memberStates == SeenAt(trace, setup.names, |trace.rounds|)
    }

    /** The states in the serialised composite. */
    function Members(): map<string, D>
      reads this
    {
      Shown(world, memberStates)
    }

    constructor (setup: Setup<D, C>, world: World<D, C>, readable: set<string>)
      requires setup.Valid()
      ensures Valid() && this.setup == setup && trace == Trace(readable, [world], [])
    {
      this.setup, this.world, memberStates := setup, world, map[];
      trace := Trace(readable, [world], []);
      new;
      UpdateMembers(readable);
    }

    method ReadAllStates(readable: set<string>) returns (states: map<string, Seen<D>>)
      ensures states == Observed(world, setup.names, readable)
    {
      states := map[];
      for i := 0 to |setup.names|
        invariant states == Observed(world, setup.names[..i], readable)
      {
        var n := setup.names[i];
        assert setup.names[..i + 1] == setup.names[..i] + [n];
        if n in readable && n in world.devices { states := states[n := Live]; }
      }
      assert setup.names[..|setup.names|] == setup.names;
    }

    method UpdateMembers(readable: set<string>)
      modifies this`memberStates
      ensures memberStates == old(memberStates) + Observed(world, setup.names, readable)
    {
      var states := ReadAllStates(readable);
      memberStates := memberStates + states;
    }

    method ReadState(meanwhile: seq<nat>, readable: set<string>)
      requires Valid()
      modifies this
      ensures Valid() && trace == old(trace).Add(world, State(meanwhile, readable))
    {
      world := Run(setup.drivers, world, meanwhile);
      UpdateMembers(readable);
      NothingIsReplaced(old(world), world, setup.names, old(memberStates), State(meanwhile, readable));
      Note(State(meanwhile, readable), old(world), old(memberStates));
    }

    /** Members change their states in place: the composite shows it at once. */
    method Change(states: map<string, D>)
      requires Valid()
      modifies this
      ensures Valid() && trace == old(trace).Add(world, Changed(states))
    {
      world := world.(devices := Overlaid(world.devices, states));
      NothingIsReplaced(old(world), world, setup.names, memberStates, Changed(states));
      Note(Changed(states), old(world), old(memberStates));
    }

    /** Members replace their state objects: the composite goes on showing the old ones until they answer again. */
    method Replace(states: map<string, D>)
      requires Valid()
      modifies this
      ensures Valid() && trace == old(trace).Add(world, Replaced(states))
    {
      memberStates := Kept(world, memberStates, Replaced(states));
      world := world.(devices := Overlaid(world.devices, states));
      NothingIsReplaced(old(world), world, setup.names, old(memberStates), Replaced(states));
      Note(Replaced(states), old(world), old(memberStates));
    }

    ghost method Note(r: Round<D>, w: World<D, C>, seen: map<string, Seen<D>>)
      requires Happens(setup, trace) && w == trace.worlds[|trace.rounds|]
          && seen == SeenAt(trace, setup.names, |trace.rounds|)
      requires world == AfterRound(setup, w, r) && memberStates == SeenAfter(w, world, setup.names, seen, r)
      modifies this`trace
      ensures Valid() && trace == old(trace).Add(world, r)
    {
      EarlierRounds(trace, setup.names, world, r, |trace.rounds|);
      trace := trace.Add(world, r);
    }

    /** Submits the call to every member that has not opted out. */
    method Submit(call: Call) returns (futures: seq<string>)
      requires setup.Valid()
      modifies this`world
      ensures futures == setup.Participants(call.Op(), |setup.names|)
      ensures forall k :: 0 <= k < |futures| ==> futures[k] in setup.types && futures[k] in setup.specs
      ensures world == setup.Submitted(call, futures, old(world))
    {
      futures := [];
      for i := 0 to |setup.names|
        invariant futures == setup.Participants(call.Op(), i)
        invariant forall k :: 0 <= k < |futures| ==> futures[k] in setup.types && futures[k] in setup.specs
        invariant world == setup.Submitted(call, futures, old(world))
      {
        var n := setup.names[i];
        if call.Op() !in setup.specs[n].skipOps {
          futures := futures + [n];
          world := world.(tasks := world.tasks + [setup.NewTask(call, n)]);
        }
      }
    }

    method FanOut(call: Call, schedule: seq<nat>, meanwhile: seq<nat>, readable: set<string>)
      returns (r: Result<(), seq<(string, string)>>)
      requires Valid()
      modifies this
      ensures Valid() && trace == old(trace).Add(world, Command(call, schedule, meanwhile, readable))
      ensures
        var ns := setup.Participants(call.Op(), |setup.names|);
        var deadline := Run(setup.drivers, setup.Submitted(call, ns, old(world)), schedule);
        var errors := Errors(deadline, old(|world.tasks|), |ns|);
        r == if errors == [] then Ok(()) else Err(errors)
    {
      var count := |world.tasks|;
      var futures := Submit(call);
      world := Run(setup.drivers, world, schedule);
      var errors := CollectErrors(count, |futures|);
      world := Run(setup.drivers, world, meanwhile);
      UpdateMembers(readable);
      var round := Command(call, schedule, meanwhile, readable);
      NothingIsReplaced(old(world), world, setup.names, old(memberStates), round);
      Note(round, old(world), old(memberStates));
      return if errors == [] then Ok(()) else Err(errors);
    }

    method CollectErrors(first: nat, count: nat) returns (errors: seq<(string, string)>)
      requires first + count <= |world.tasks|
      ensures errors == Errors(world, first, count)
    {
      errors := [];
      for i := 0 to count
        invariant errors == Errors(world, first, i)
      {
        var Task(n, status) := world.tasks[first + i];
        match status {
          case Running(_) => errors := errors + [(n, "no response")];
          case Raised(e) => errors := errors + [(n, e)];
          case Finished =>
        }
      }
    }
  }
}
