/** The record ezbeq keeps of a minidsp, the operations that change both, and the simulation between the two. */
module MinidspController {
  import opened Common
  import opened MinidspDevice
  import opened MinidspCommands
  import opened MinidspBiquads

  // ---- the record, as a value ----

  datatype SlotView = SlotView(gains: seq<real>, mutes: seq<bool>, active: bool, last: string, author: Option<string>)

  datatype Record = Record(activeSlot: int, volume: real, mute: bool, slots: seq<SlotView>)

  /** Replaces every channel's value, or just one. */
  function SetChannel<T>(values: seq<T>, channel: Option<int>, v: T): seq<T>
    requires channel.Some? ==> 1 <= channel.value <= |values|
  {
    if channel.None? then seq(|values|, i => v) else values[channel.value - 1 := v]
  }

  function FreshSlot(inputs: nat, active: bool): SlotView {
    SlotView(seq(inputs, i => 0.0), seq(inputs, i => false), active, "Empty", None)
  }

  function SlotCleared(s: SlotView): SlotView {
    s.(gains := SetChannel(s.gains, None, 0.0), mutes := SetChannel(s.mutes, None, false), last := "Empty",
       author := None)
  }

  function Activated(r: Record, slot: int): Record {
    r.(activeSlot := slot,
       slots := seq(|r.slots|, i requires 0 <= i < |r.slots| => r.slots[i].(active := i + 1 == slot)))
  }

  function WithSlot(r: Record, slot: int, s: SlotView): Record
    requires 1 <= slot <= |r.slots|
  {
    r.(slots := r.slots[slot - 1 := s])
  }

  class MinidspSlotState {
    const slotId: int
    const inputChannels: nat
    var gains: seq<real>
    var mutes: seq<bool>
    var active: bool
    var last: string
    var lastAuthor: Option<string>

    ghost predicate Valid()
      reads this
    {
      |gains| == inputChannels && |mutes| == inputChannels
    }

    ghost function View(): SlotView
      reads this
    {
      SlotView(gains, mutes, active, last, lastAuthor)
    }

    constructor (slotId: int, active: bool, inputChannels: nat)
      ensures Valid() && this.slotId == slotId && this.inputChannels == inputChannels
      ensures View() == FreshSlot(inputChannels, active)
    {
      this.slotId, this.inputChannels, this.active := slotId, inputChannels, active;
      gains, mutes := seq(inputChannels, i => 0.0), seq(inputChannels, i => false);
      last, lastAuthor := "Empty", None;
    }

    /** A channel past the last raises ValueError, one before the first StopIteration. */
    method SetGain(channel: Option<int>, value: real) returns (known: bool)
      requires Valid()
      modifies this`gains
      ensures Valid()
      ensures known <==> (channel.Some? ==> 1 <= channel.value <= inputChannels)
      ensures gains == if known then SetChannel(old(gains), channel, value) else old(gains)
    {
      if channel.None? {
        gains := seq(inputChannels, i => value);
      } else if 1 <= channel.value <= inputChannels {
        gains := gains[channel.value - 1 := value];
      } else {
        return false;
      }
      return true;
    }

    method SetMute(channel: Option<int>, value: bool) returns (known: bool)
      requires Valid()
      modifies this`mutes
      ensures Valid()
      ensures known <==> (channel.Some? ==> 1 <= channel.value <= inputChannels)
      ensures mutes == if known then SetChannel(old(mutes), channel, value) else old(mutes)
    {
      if channel.None? {
        mutes := seq(inputChannels, i => value);
      } else if 1 <= channel.value <= inputChannels {
        mutes := mutes[channel.value - 1 := value];
      } else {
        return false;
      }
      return true;
    }

    /** A clear, as far as the slot goes. */
    method Empty()
      requires Valid()
      modifies this
      ensures Valid() && View() == SlotCleared(old(View()))
    {
      var _ := SetMute(None, false);
      var _ := SetGain(None, 0.0);
      last := "Empty";
      lastAuthor := None;
    }
  }

  class MinidspState {
    var activeSlot: int
    var masterVolume: real
    var muted: bool
    const slots: seq<MinidspSlotState>

    ghost predicate Valid()
      reads this, slots
    {
      && |slots| == PRESETS
      && (forall i, j :: 0 <= i < j < PRESETS ==> slots[i] != slots[j])
      && (forall i :: 0 <= i < PRESETS ==> slots[i].Valid() && slots[i].slotId == i + 1)
      && (forall i :: 0 <= i < PRESETS ==> slots[i].inputChannels == slots[0].inputChannels)
    }

    ghost function View(): Record
      requires Valid()
      reads this, slots
    {
      Record(activeSlot, masterVolume, muted, [slots[0].View(), slots[1].View(), slots[2].View(), slots[3].View()])
    }

    constructor (activeSlot: int, volume: real, muted: bool, inputs: nat)
      ensures Valid() && fresh(slots) && slots[0].inputChannels == inputs
      ensures View().activeSlot == activeSlot && View().volume == volume && View().mute == muted
      ensures forall i :: 0 <= i < PRESETS ==> View().slots[i] == FreshSlot(inputs, i + 1 == activeSlot)
    {
      this.activeSlot, masterVolume, this.muted := activeSlot, volume, muted;
      var s1 := new MinidspSlotState(1, activeSlot == 1, inputs);
      var s2 := new MinidspSlotState(2, activeSlot == 2, inputs);
      var s3 := new MinidspSlotState(3, activeSlot == 3, inputs);
      var s4 := new MinidspSlotState(4, activeSlot == 4, inputs);
      slots := [s1, s2, s3, s4];
    }

    method Activate(slot: int)
      requires Valid()
      modifies this`activeSlot, slots`active
      ensures Valid() && View() == Activated(old(View()), slot)
    {
      activeSlot := slot;
      for i := 0 to |slots|
        invariant Valid() && activeSlot == slot
        invariant forall k :: 0 <= k < i ==> slots[k].active == (k + 1 == slot)
        invariant forall k :: i <= k < PRESETS ==> slots[k].active == old(slots[k].active)
      {
        slots[i].active := slots[i].slotId == slot;
      }
    }

    method Load(slot: int, title: string, author: Option<string>)
      requires Valid() && 1 <= slot <= PRESETS
      modifies this, slots
      ensures Valid()
      ensures View() == RecordLoaded(old(View()), slot, title, author)
    {
      var s := slots[slot - 1];
      s.last := title;
      s.lastAuthor := author;
      assert View() == WithSlot(old(View()), slot, old(View()).slots[slot - 1].(last := title, author := author));
      Activate(slot);
    }

    method LoadCustom(slot: int, inputs: seq<int>)
      requires Valid() && 1 <= slot <= PRESETS
      modifies this, slots
      ensures Valid()
      ensures View() == RecordBiquads(old(View()), slot, inputs)
    {
      if inputs != [] { Load(slot, "CUSTOM", None); } else { Activate(slot); }
    }

    method Clear(slot: int)
      requires Valid() && 1 <= slot <= PRESETS
      modifies this, slots
      ensures Valid()
      ensures View() == RecordCleared(old(View()), slot)
    {
      slots[slot - 1].Empty();
      assert View() == WithSlot(old(View()), slot, SlotCleared(old(View()).slots[slot - 1]));
      Activate(slot);
    }

    method Gain(slot: Option<int>, channel: Option<int>, gain: real) returns (known: bool)
      requires Valid()
      modifies this, slots
      ensures Valid()
      ensures known <==> KnownChannel(old(View()), slot, channel)
      ensures View() == if known then RecordGain(old(View()), slot, channel, gain) else old(View())
    {
      if slot.None? {
        masterVolume := gain;
        return true;
      }
      if !(1 <= slot.value <= |slots|) { return false; }
      known := slots[slot.value - 1].SetGain(channel, gain);
      if known {
        ghost var s := old(View()).slots[slot.value - 1];
        assert View() == WithSlot(old(View()), slot.value, s.(gains := SetChannel(s.gains, channel, gain)));
        Activate(slot.value);
      }
    }

    method ToggleMute(slot: Option<int>, channel: Option<int>, mute: bool) returns (known: bool)
      requires Valid()
      modifies this, slots
      ensures Valid()
      ensures known <==> KnownChannel(old(View()), slot, channel)
      ensures View() == if known then RecordMute(old(View()), slot, channel, mute) else old(View())
    {
      if slot.None? {
        muted := mute;
        return true;
      }
      if !(1 <= slot.value <= |slots|) { return false; }
      known := slots[slot.value - 1].SetMute(channel, mute);
      if known {
        ghost var s := old(View()).slots[slot.value - 1];
        assert View() == WithSlot(old(View()), slot.value, s.(mutes := SetChannel(s.mutes, channel, mute)));
        Activate(slot.value);
      }
    }
  }

  function RecordLoaded(r: Record, slot: int, title: string, author: Option<string>): Record
    requires 1 <= slot <= |r.slots|
  {
    Activated(WithSlot(r, slot, r.slots[slot - 1].(last := title, author := author)), slot)
  }

  /** Biquads for inputs are shown as a custom filter, others not at all. */
  function RecordBiquads(r: Record, slot: int, inputs: seq<int>): Record
    requires 1 <= slot <= |r.slots|
  {
    if inputs != [] then RecordLoaded(r, slot, "CUSTOM", None) else Activated(r, slot)
  }

  function RecordCleared(r: Record, slot: int): Record
    requires 1 <= slot <= |r.slots|
  {
    Activated(WithSlot(r, slot, SlotCleared(r.slots[slot - 1])), slot)
  }

  /** The record has this slot, and this channel of it; the master section has no channels. */
  predicate KnownChannel(r: Record, slot: Option<int>, channel: Option<int>) {
    slot.Some? ==>
      && 1 <= slot.value <= |r.slots|
      && (channel.Some? ==>
            1 <= channel.value <= |r.slots[slot.value - 1].gains| && channel.value <= |r.slots[slot.value - 1].mutes|)
  }

  function RecordGain(r: Record, slot: Option<int>, channel: Option<int>, gain: real): Record
    requires KnownChannel(r, slot, channel)
  {
    if slot.None? then r.(volume := gain) else
    var s := r.slots[slot.value - 1];
    Activated(WithSlot(r, slot.value, s.(gains := SetChannel(s.gains, channel, gain))), slot.value)
  }

  function RecordMute(r: Record, slot: Option<int>, channel: Option<int>, mute: bool): Record
    requires KnownChannel(r, slot, channel)
  {
    if slot.None? then r.(mute := mute) else
    var s := r.slots[slot.value - 1];
    Activated(WithSlot(r, slot.value, s.(mutes := SetChannel(s.mutes, channel, mute))), slot.value)
  }

  function RecordFailed(r: Record, slot: int): Record
    requires 1 <= slot <= |r.slots|
  {
    RecordLoaded(r, slot, "ERROR", None)
  }

  // ---- the operations ----

  datatype Op =
    | Activate(slot: int)
    | LoadFilter(slot: int, entry: Entry)
    | ClearFilter(slot: int)
    | LoadBiquads(slot: int, overwrite: bool, inputs: seq<int>, outputs: seq<int>, biquads: seq<Option<Bq>>)
    | SetMute(target: Option<int>, channel: Option<int>, on: bool)
    | SetGain(target: Option<int>, channel: Option<int>, gain: real)
  {
    /** The slot an operation addresses; None is the master section. */
    function Slot(): Option<int> {
      match this
      case SetMute(t, _, _) => t
      case SetGain(t, _, _) => t
      case Activate(s) => Some(s)
      case LoadFilter(s, _) => Some(s)
      case ClearFilter(s) => Some(s)
      case LoadBiquads(s, _, _, _, _) => Some(s)
    }

    /** Operations that write biquads; the record shows the slot's error when one cannot be sent. */
    predicate WritesBiquads() { LoadFilter? || ClearFilter? || LoadBiquads? }
  }

  datatype OpError = InvalidRequest | CompileFailed(e: CompileError) | SendFailed | NotInRecord

  predicate SlotInRange(slot: int) { 1 <= slot <= PRESETS }

  function InputChannel(c: int): ChannelId { ChannelId(INPUT_NAME, c) }

  /** Appends the channels not met before, in order. */
  function AddNew(handled: seq<int>, channels: seq<int>): seq<int> {
    if channels == [] then handled else
    var h := AddNew(handled, channels[..|channels| - 1]);
    var c := channels[|channels| - 1];
    if c in h then h else h + [c]
  }

  /** The input channels some slot of the allocator writes, each once, in allocator order. */
  function BeqInputs(slots: seq<BeqFilterSlot>): seq<int> {
    if slots == [] then [] else
    var h := BeqInputs(slots[..|slots| - 1]);
    var s := slots[|slots| - 1];
    if s.name == INPUT_NAME then AddNew(h, s.channels) else h
  }

  function ResetLevels(channels: seq<int>): seq<Command> {
    if channels == [] then [] else
    var c := channels[|channels| - 1];
    ResetLevels(channels[..|channels| - 1]) + [Mute(InputChannel(c), false), Gain(InputChannel(c), 0.0)]
  }

  function MuteCommands(on: bool, slot: Option<int>, channel: Option<int>): seq<Command> {
    if slot.None? then [MasterMute(on)]
    else if channel.None? then [Mute(InputChannel(0), on), Mute(InputChannel(1), on)]
    else [Mute(InputChannel(channel.value), on)]
  }

  function GainCommands(gain: real, slot: Option<int>, channel: Option<int>): Result<seq<Command>, OpError> {
    var db := TwoDecimals(gain);
    if slot.None? then if -127.0 <= gain <= 0.0 then Ok([MasterGain(db)]) else Err(InvalidRequest)
    else if !(-72.0 <= gain <= 12.0) then Err(InvalidRequest)
    else if channel.None? then Ok([Gain(InputChannel(0), db), Gain(InputChannel(1), db)])
    else Ok([Gain(InputChannel(channel.value), db)])
  }

  /** A channel given as 0 counts as not given. */
  function ChannelIndex(channel: Option<int>): Option<int> {
    if channel.Some? && channel.value != 0 then Some(channel.value - 1) else None
  }

  function ClearSlots(slots: seq<BeqFilterSlot>): seq<Command> {
    Compiled([], slots) + ResetLevels(BeqInputs(slots))
  }

  function ClearCommands(d: Descriptor): seq<Command> { ClearSlots(AllocatorSlots(d.Routes())) }

  /** What an operation sends, or why it sends nothing. */
  function Commands(d: Descriptor, op: Op): Result<seq<Command>, OpError> {
    match op
    case Activate(s) => if SlotInRange(s) then Ok([]) else Err(InvalidRequest)
    case LoadFilter(s, e) =>
      if !SlotInRange(s) then Err(InvalidRequest) else
      (match Filt(Some(e), d) case Ok(cmds) => Ok(cmds) case Err(x) => Err(CompileFailed(x)))
    case ClearFilter(s) => if SlotInRange(s) then Ok(ClearCommands(d)) else Err(InvalidRequest)
    case LoadBiquads(s, overwrite, inputs, outputs, bqs) =>
      if SlotInRange(s) then Ok(BiquadCommands(overwrite, inputs, outputs, bqs)) else Err(InvalidRequest)
    case SetMute(t, c, on) =>
      if t.Some? && !SlotInRange(t.value) then Err(InvalidRequest) else Ok(MuteCommands(on, t, ChannelIndex(c)))
    case SetGain(t, c, g) => GainCommands(g, t, ChannelIndex(c))
  }

  /** The record can follow the operation. */
  predicate Recordable(op: Op, r: Record) {
    KnownChannel(r, op.Slot(), if op.SetMute? || op.SetGain? then op.channel else None)
  }

  function Recorded(op: Op, r: Record): Record
    requires Recordable(op, r)
  {
    match op
    case Activate(s) => Activated(r, s)
    case LoadFilter(s, e) => RecordLoaded(r, s, e.title, Some(e.author))
    case ClearFilter(s) => RecordCleared(r, s)
    case LoadBiquads(s, _, inputs, _, _) => RecordBiquads(r, s, inputs)
    case SetMute(t, c, on) => RecordMute(r, t, c, on)
    case SetGain(t, c, g) => RecordGain(r, t, c, g)
  }

  /** The device with the preset of a slot active; the master section needs no switch. */
  function Switched(d: Device, slot: Option<int>): Device {
    if slot.Some? && 1 <= slot.value <= PRESETS then d.(active := slot.value - 1) else d
  }

  /** One CLI invocation: whether the status before it could be read, and after how many commands it fails, if it
      does. */
  datatype Invocation = Invocation(statusRead: bool, failsAfter: Option<nat>)

  ghost predicate Interrupted(before: Device, after: Device, slot: Option<int>, cmds: seq<Command>) {
    after == before || exists k :: 0 <= k <= |cmds| && after == ExecAll(Switched(before, slot), cmds[..k])
  }

  /** A leading config command is the switch. */
  lemma {:induction false} SwitchFirst(d: Device, slot: int, cmds: seq<Command>)
    requires d.Valid()
    ensures ExecAll(d, [Config(slot - 1)] + cmds) == ExecAll(Switched(d, Some(slot)), cmds)
  {
    var all := [Config(slot - 1)] + cmds;
    assert all[1..] == cmds;
  }

  /** The levels to reset: every channel of every input slot the first time it is met. */
  method ClearLevels(beqSlots: BeqFilterAllocator) returns (levels: seq<Command>)
    modifies beqSlots
    ensures levels == ResetLevels(BeqInputs(old(beqSlots.slots)))
  {
    ghost var all := beqSlots.slots;
    ghost var k := 0;
    levels := [];
    var handled: seq<int> := [];
    var s := beqSlots.Pop();
    while s.Some?
      invariant 0 <= k <= |all| && handled == BeqInputs(all[..k])
      invariant levels == ResetLevels(handled)
      invariant s == if k < |all| then Some(all[k]) else None
      invariant beqSlots.slots == if k < |all| then all[k + 1..] else []
      decreases |all| - k
    {
      BeqInputsStep(all, k);
      if s.value.name == INPUT_NAME {
        handled, levels := ResetNew(handled, levels, s.value.channels);
      }
      k := k + 1;
      s := beqSlots.Pop();
    }
    assert all[..k] == all;
  }

  lemma {:induction false} BeqInputsStep(slots: seq<BeqFilterSlot>, k: nat)
    requires k < |slots|
    ensures BeqInputs(slots[..k + 1]) ==
            if slots[k].name == INPUT_NAME then AddNew(BeqInputs(slots[..k]), slots[k].channels)
                else BeqInputs(slots[..k])
  {
    assert slots[..k + 1][..k] == slots[..k];
  }

  method ResetNew(handled0: seq<int>, levels0: seq<Command>, channels: seq<int>)
    returns (handled: seq<int>, levels: seq<Command>)
    requires levels0 == ResetLevels(handled0)
    ensures handled == AddNew(handled0, channels) && levels == ResetLevels(handled)
  {
    handled, levels := handled0, levels0;
    for i := 0 to |channels|
      invariant handled == AddNew(handled0, channels[..i]) && levels == ResetLevels(handled)
    {
      var c := channels[i];
      assert channels[..i + 1][..i] == channels[..i];
      if c !in handled {
        assert (handled + [c])[..|handled|] == handled;
        levels := levels + [Mute(InputChannel(c), false), Gain(InputChannel(c), 0.0)];
        handled := handled + [c];
      }
    }
    assert channels[..|channels|] == channels;
  }

  class Minidsp {
    const descriptor: Descriptor
    const slotChangeDelay: bool
    const state: MinidspState
    var device: Device

    ghost predicate Valid()
      reads this, state, state.slots
    {
      state.Valid() && device.Valid() && state.slots[0].inputChannels == descriptor.Inputs()
    }

    /** Start-up: the record takes the active slot and the master section from the device, if the status can be read. */
    constructor (descriptor: Descriptor, slotChangeDelay: bool, device: Device, statusRead: bool)
      requires device.Valid()
      ensures Valid() && fresh(state) && fresh(state.slots) && this.descriptor == descriptor && this.device == device
      ensures statusRead ==> state.View().activeSlot == device.active + 1
      ensures statusRead ==> state.View().volume == device.volume && state.View().mute == device.mute
    {
      this.descriptor, this.slotChangeDelay, this.device := descriptor, slotChangeDelay, device;
      if statusRead {
        state := new MinidspState(device.active + 1, device.volume, device.mute, descriptor.Inputs());
      } else {
        state := new MinidspState(0, 0.0, false, descriptor.Inputs());
      }
    }

    /** One run of the executable on a command file. */
    method RunFile(cmds: seq<Command>, failsAfter: Option<nat>) returns (ok: bool)
      modifies this`device
      ensures ok ==> device == ExecAll(old(device), cmds)
      ensures !ok ==> exists k :: 0 <= k <= |cmds| && device == ExecAll(old(device), cmds[..k])
      ensures failsAfter.None? ==> ok
    {
      if failsAfter.Some? {
        var k := if failsAfter.value <= |cmds| then failsAfter.value else |cmds|;
        device := ExecAll(device, cmds[..k]);
        return false;
      }
      device := ExecAll(device, cmds);
      return true;
    }

    /** Sends commands to a slot, switching preset first if the device is not known to be there. */
    method DoRun(configCmds: seq<Command>, slot: Option<int>, delay: bool, run: Invocation, switch: Invocation)
      returns (ok: bool)
      requires device.Valid()
      modifies this`device
      ensures ok ==> device == ExecAll(Switched(old(device), slot), configCmds)
      ensures !ok ==> Interrupted(old(device), device, slot, configCmds)
      ensures run.failsAfter.None? && switch.failsAfter.None? ==> ok
      decreases delay
    {
      var cmds := configCmds;
      if slot.Some? {
        var changeSlot := true;
        if run.statusRead && device.active == slot.value - 1 {
          changeSlot := false;
        }
        if changeSlot {
          if delay {
            var switched := DoRun([], slot, false, switch, switch);
            if !switched {
              assert configCmds[..0] == [][..0];
              return false;
            }
          } else {
            cmds := [Config(slot.value - 1)] + cmds;
          }
        }
      }
      ghost var before := device;
      ok := RunFile(cmds, run.failsAfter);
      if slot.Some? && cmds != configCmds {
        SwitchFirst(before, slot.value, configCmds);
        if !ok {
          ghost var k :| 0 <= k <= |cmds| && device == ExecAll(before, cmds[..k]);
          if k > 0 {
            assert cmds[..k] == [Config(slot.value - 1)] + configCmds[..k - 1];
            SwitchFirst(before, slot.value, configCmds[..k - 1]);
          }
        }
      }
    }

    ghost predicate Performed(op: Op, rec: Record, dev: Device, r: Result<(), OpError>)
      requires state.Valid()
      reads this, state, state.slots
    {
      Outcome(descriptor, op, rec, dev, r, state.View(), device)
    }

    method SendCommands(slot: Option<int>, cmds: seq<Command>, run: Invocation, switch: Invocation) returns (ok: bool)
      requires device.Valid()
      modifies this`device
      ensures device.Valid()
      ensures ok ==> device == ExecAll(Switched(old(device), slot), cmds)
      ensures !ok ==> Interrupted(old(device), device, slot, cmds)
      ensures run.failsAfter.None? && switch.failsAfter.None? ==> ok
    {
      ghost var before := device;
      ok := DoRun(cmds, slot, slotChangeDelay, run, switch);
      if ok {
        ExecAllValid(Switched(before, slot), cmds);
      } else if device != before {
        ghost var k :| 0 <= k <= |cmds| && device == ExecAll(Switched(before, slot), cmds[..k]);
        ExecAllValid(Switched(before, slot), cmds[..k]);
      }
    }

    method ActivateSlot(slot: int, run: Invocation, switch: Invocation) returns (r: Result<(), OpError>)
      requires Valid()
      modifies this`device, state, state.slots
      ensures Valid() && Performed(Activate(slot), old(state.View()), old(device), r)
      ensures r == Err(SendFailed) ==> run.failsAfter.Some? || switch.failsAfter.Some?
    {
      if !SlotInRange(slot) { return Err(InvalidRequest); }
      var sent := SendCommands(Some(slot), [], run, switch);
      if !sent { return Err(SendFailed); }
      state.Activate(slot);
      return Ok(());
    }

    /** Sends a load or a clear; if that fails, the record shows the slot's error. */
    method SendOrNote(slot: int, cmds: seq<Command>, run: Invocation, switch: Invocation) returns (sent: bool)
      requires Valid() && SlotInRange(slot)
      modifies this`device, state, state.slots
      ensures Valid()
      ensures sent ==> device == ExecAll(Switched(old(device), Some(slot)), cmds) && state.View() == old(state.View())
      ensures !sent ==>
          Interrupted(old(device), device, Some(slot), cmds)
          && state.View() == RecordFailed(old(state.View()), slot)
      ensures run.failsAfter.None? && switch.failsAfter.None? ==> sent
    {
      sent := SendCommands(Some(slot), cmds, run, switch);
      if !sent { state.Load(slot, "ERROR", None); }
    }

    method LoadBeq(slot: int, entry: Entry, run: Invocation, switch: Invocation) returns (r: Result<(), OpError>)
      requires Valid()
      modifies this`device, state, state.slots
      ensures Valid() && Performed(LoadFilter(slot, entry), old(state.View()), old(device), r)
      ensures r == Err(SendFailed) ==> run.failsAfter.Some? || switch.failsAfter.Some?
    {
      if !SlotInRange(slot) { return Err(InvalidRequest); }
      var cmds := GenerateFilt(Some(entry), descriptor);
      if cmds.Err? { return Err(CompileFailed(cmds.error)); }
      var sent := SendOrNote(slot, cmds.value, run, switch);
      if !sent { return Err(SendFailed); }
      state.Load(slot, entry.title, Some(entry.author));
      return Ok(());
    }

    method GenerateClear() returns (cmds: seq<Command>)
      ensures cmds == ClearCommands(descriptor)
    {
      var filt := GenerateFilt(None, descriptor);
      var beqSlots := new BeqFilterAllocator(descriptor.Routes());
      var levels := ClearLevels(beqSlots);
      return filt.value + levels;
    }

    method ClearBeq(slot: int, run: Invocation, switch: Invocation) returns (r: Result<(), OpError>)
      requires Valid()
      modifies this`device, state, state.slots
      ensures Valid() && Performed(ClearFilter(slot), old(state.View()), old(device), r)
      ensures r == Err(SendFailed) ==> run.failsAfter.Some? || switch.failsAfter.Some?
    {
      if !SlotInRange(slot) { return Err(InvalidRequest); }
      var cmds := GenerateClear();
      var sent := SendOrNote(slot, cmds, run, switch);
      if !sent { return Err(SendFailed); }
      state.Clear(slot);
      return Ok(());
    }

    method DoLoadBiquads(
        slot: int, overwrite: bool, inputs: seq<int>, outputs: seq<int>, biquads: seq<Dict>, run: Invocation,
        switch: Invocation)
      returns (r: Result<(), OpError>)
      requires Valid()
      modifies this`device, state, state.slots
      ensures Valid()
      ensures Performed(LoadBiquads(slot, overwrite, inputs, outputs, old(Values(biquads))), old(state.View()),
          old(device), r)
      ensures r == Err(SendFailed) ==> run.failsAfter.Some? || switch.failsAfter.Some?
    {
      if !SlotInRange(slot) { return Err(InvalidRequest); }
      ghost var op := LoadBiquads(slot, overwrite, inputs, outputs, Values(biquads));
      var cmds := GenerateBiquads(overwrite, inputs, outputs, biquads);
      r := SendCustom(slot, inputs, cmds, op, run, switch);
    }

    method SendCustom(
        slot: int, inputs: seq<int>, cmds: seq<Command>, ghost op: Op, run: Invocation, switch: Invocation)
      returns (r: Result<(), OpError>)
      requires Valid() && op.LoadBiquads? && op.slot == slot && op.inputs == inputs
          && Commands(descriptor, op) == Ok(cmds)
      modifies this`device, state, state.slots
      ensures Valid() && Performed(op, old(state.View()), old(device), r)
      ensures r == Err(SendFailed) ==> run.failsAfter.Some? || switch.failsAfter.Some?
    {
      var sent := SendOrNote(slot, cmds, run, switch);
      if !sent { return Err(SendFailed); }
      state.LoadCustom(slot, inputs);
      return Ok(());
    }

    method DoMute(target: Option<int>, channel: Option<int>, on: bool, run: Invocation, switch: Invocation)
      returns (r: Result<(), OpError>)
      requires Valid()
      modifies this`device, state, state.slots
      ensures Valid() && Performed(SetMute(target, channel, on), old(state.View()), old(device), r)
      ensures r == Err(SendFailed) ==> run.failsAfter.Some? || switch.failsAfter.Some?
    {
      if target.Some? && !SlotInRange(target.value) { return Err(InvalidRequest); }
      var cmds := MuteCommands(on, target, ChannelIndex(channel));
      var sent := SendCommands(target, cmds, run, switch);
      if !sent { return Err(SendFailed); }
      var known := state.ToggleMute(target, channel, on);
      return if known then Ok(()) else Err(NotInRecord);
    }

    method DoGain(target: Option<int>, channel: Option<int>, gain: real, run: Invocation, switch: Invocation)
      returns (r: Result<(), OpError>)
      requires Valid()
      modifies this`device, state, state.slots
      ensures Valid() && Performed(SetGain(target, channel, gain), old(state.View()), old(device), r)
      ensures r == Err(SendFailed) ==> run.failsAfter.Some? || switch.failsAfter.Some?
    {
      var cmds := GainCommands(gain, target, ChannelIndex(channel));
      if cmds.Err? { return Err(cmds.error); }
      var sent := SendCommands(target, cmds.value, run, switch);
      if !sent { return Err(SendFailed); }
      var known := state.Gain(target, channel, gain);
      return if known then Ok(()) else Err(NotInRecord);
    }
  }

  lemma {:induction false} ExecAllValid(d: Device, cmds: seq<Command>)
    requires d.Valid()
    ensures ExecAll(d, cmds).Valid()
    decreases cmds
  {
    if cmds != [] { ExecAllValid(Exec(d, cmds[0]), cmds[1..]); }
  }

  /** What an operation may leave behind. A success runs its commands on the right preset, then records it; a send that
      breaks off leaves a prefix of them, and only loads and clears note it; anything refused earlier changes
      nothing. */
  ghost predicate Outcome(
      d: Descriptor, op: Op, rec: Record, dev: Device, r: Result<(), OpError>, rec': Record, dev': Device) {
    var cmds := Commands(d, op);
    if r.Ok? then
      cmds.Ok? && Recordable(op, rec) && dev' == ExecAll(Switched(dev, op.Slot()), cmds.value)
          && rec' == Recorded(op, rec)
    else if r.error.SendFailed? then
      && cmds.Ok? && Interrupted(dev, dev', op.Slot(), cmds.value)
      && (op.WritesBiquads() ==> 1 <= op.slot <= |rec.slots| && rec' == RecordFailed(rec, op.slot))
      && (!op.WritesBiquads() ==> rec' == rec)
    else if r.error.NotInRecord? then
      cmds.Ok? && !Recordable(op, rec) && dev' == ExecAll(Switched(dev, op.Slot()), cmds.value) && rec' == rec
    else
      cmds == Err(r.error) && dev' == dev && rec' == rec
  }
}
