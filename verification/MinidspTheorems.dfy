/** What minidsp operations do to the hardware, and how faithfully the record follows it over whole runs. */
module MinidspTheorems {
  import opened Common
  import opened MinidspDevice
  import opened MinidspCommands
  import opened MinidspBiquads
  import opened MinidspController

  // ---- loads ----

  ghost predicate OthersKept(before: Device, after: Device, slot: int)
    requires SlotInRange(slot)
  {
    && after.active == slot - 1 && |after.presets| == |before.presets| == PRESETS
    && after.volume == before.volume && after.mute == before.mute
    && (forall p :: 0 <= p < PRESETS && p != slot - 1 ==> after.presets[p] == before.presets[p])
  }

  function DeviceStep(d: Descriptor, dev: Device, op: Op): Device
    requires Commands(d, op).Ok?
  {
    ExecAll(Switched(dev, op.Slot()), Commands(d, op).value)
  }

  /** An operation of preset commands writes its own preset and switches to it; nothing else on the device moves. */
  lemma {:induction false} StepOnPreset(d: Descriptor, dev: Device, op: Op, cmds: seq<Command>)
    requires dev.Valid() && Commands(d, op) == Ok(cmds) && op.Slot().Some? && SlotInRange(op.Slot().value)
    requires forall i :: 0 <= i < |cmds| ==> cmds[i].WritesPreset()
    ensures OthersKept(dev, DeviceStep(d, dev, op), op.Slot().value)
    ensures DeviceStep(d, dev, op).presets[op.Slot().value - 1] == WriteAll(dev.presets[op.Slot().value - 1], cmds)
  {
    ExecAllOnPreset(Switched(dev, op.Slot()), cmds);
  }

  /** Biquads of no allocator slot keep their coefficients and their bypass. */
  ghost predicate BystandersKept(p: Preset, q: Preset, slots: seq<BeqFilterSlot>) {
    forall a :: (forall k :: 0 <= k < |slots| ==> a !in slots[k].Addresses()) ==>
      Get(q.bypassed, a) == Get(p.bypassed, a) && Get(q.coeffs, a) == Get(p.coeffs, a)
  }

  function Slots(d: Descriptor): seq<BeqFilterSlot> { AllocatorSlots(d.Routes()) }

  /** A successful load, from any device: the slot's preset is active, the other presets and the master section are as
      they were, no level and no bystander moves, and the entry holds if and only if no two of its slots clash. */
  lemma {:induction false} LoadIsIsolated(d: Descriptor, dev: Device, slot: int, e: Entry)
    requires dev.Valid() && Commands(d, LoadFilter(slot, e)).Ok?
    ensures AsBiquads(e.filters, d.fs).Ok? && |e.filters| <= |Slots(d)| && SlotInRange(slot)
    ensures
      var after := DeviceStep(d, dev, LoadFilter(slot, e));
      var filters := AsBiquads(e.filters, d.fs).value;
      && OthersKept(dev, after, slot)
      && var p, q := dev.presets[slot - 1], after.presets[slot - 1];
      && q.gains == p.gains && q.mutes == p.mutes && BystandersKept(p, q, Slots(d))
      && (Holds(q, filters, Slots(d)) <==> NoClash(filters, Slots(d)))
  {
    var filters := AsBiquads(e.filters, d.fs).value;
    var cmds := Compiled(filters, Slots(d));
    assert Filters(Some(e)) == e.filters;
    var p := dev.presets[slot - 1];
    CompiledWritesBiquads(filters, Slots(d));
    StepOnPreset(d, dev, LoadFilter(slot, e), cmds);
    LoadIsCorrectIffNoClash(p, filters, Slots(d));
    CompiledKeepsBystanders(p, filters, Slots(d));
  }

  lemma {:induction false} CompiledKeepsBystanders(p: Preset, filters: seq<Coeffs>, slots: seq<BeqFilterSlot>)
    requires |filters| <= |slots|
    ensures
      var q := WriteAll(p, Compiled(filters, slots));
      q.gains == p.gains && q.mutes == p.mutes && BystandersKept(p, q, slots)
  {
    var q := WriteAll(p, Compiled(filters, slots));
    CompiledSettles(p, filters, slots);
    SettledKeepsLevels(p, filters, slots);
    forall a | forall k :: 0 <= k < |slots| ==> a !in slots[k].Addresses()
      ensures Get(q.bypassed, a) == Get(p.bypassed, a) && Get(q.coeffs, a) == Get(p.coeffs, a)
    {
      LastOwnerDecides(p, filters, slots, a);
      OwnerIsLast(slots, a);
      OwnerIsLast(slots[..|filters|], a);
    }
  }

  /** No two slots share a biquad. */
  ghost predicate Separate(slots: seq<BeqFilterSlot>) {
    forall j, k :: 0 <= j < k < |slots| ==> slots[j].Addresses() !! slots[k].Addresses()
  }

  /** An entry of k flat filters, which every layout can compile. */
  const FLAT: Coeffs := ["1", "0", "0", "0", "0"]

  function FlatEntry(k: nat): Entry { Entry("", "", seq(k, i => CatalogueFilter(map[], Some(FLAT)))) }

  function Flats(k: nat): (r: seq<Coeffs>)
    ensures |r| == k
  {
    seq(k, i => FLAT)
  }

  lemma {:induction false} FlatEntryCompiles(k: nat, rate: string)
    ensures AsBiquads(FlatEntry(k).filters, rate) == Ok(Flats(k))
  {
    if k == 0 {
      assert FlatEntry(0).filters == [] && Flats(0) == [];
    } else {
      FlatEntryCompiles(k - 1, rate);
      assert FlatEntry(k).filters[..k - 1] == FlatEntry(k - 1).filters;
      assert Flats(k) == Flats(k - 1) + [FLAT];
      assert AsBiquad(FlatEntry(k).filters[k - 1], rate) == Ok(FLAT);
    }
  }

  /** An entry that compiles is held by the slot's preset after a load. */
  ghost predicate LoadHolds(d: Descriptor, dev: Device, slot: int, e: Entry)
    requires dev.Valid() && Commands(d, LoadFilter(slot, e)).Ok?
  {
    var after := DeviceStep(d, dev, LoadFilter(slot, e));
    && SlotInRange(slot) && |after.presets| == PRESETS && AsBiquads(e.filters, d.fs).Ok?
    && Holds(after.presets[slot - 1], AsBiquads(e.filters, d.fs).value, Slots(d))
  }

  lemma {:induction false} LoadHoldsIff(d: Descriptor, dev: Device, slot: int, e: Entry)
    requires dev.Valid() && Commands(d, LoadFilter(slot, e)).Ok?
    ensures AsBiquads(e.filters, d.fs).Ok?
    ensures LoadHolds(d, dev, slot, e) <==> NoClash(AsBiquads(e.filters, d.fs).value, Slots(d))
  {
    assert Filters(Some(e)) == e.filters;
    LoadIsIsolated(d, dev, slot, e);
  }

  lemma {:induction false} FlatEntryLoads(d: Descriptor, slot: int, k: nat)
    requires SlotInRange(slot) && k <= |Slots(d)|
    ensures AsBiquads(FlatEntry(k).filters, d.fs) == Ok(Flats(k))
    ensures Commands(d, LoadFilter(slot, FlatEntry(k))).Ok?
  {
    FlatEntryCompiles(k, d.fs);
    assert Filters(Some(FlatEntry(k))) == FlatEntry(k).filters;
  }

  /** Two slots that share a biquad are caught by an entry that fills the first and not the second. */
  lemma {:induction false} SharingLosesFilters(d: Descriptor, dev: Device, slot: int, j: nat, k: nat, a: Address)
    requires dev.Valid() && SlotInRange(slot)
    requires j < k < |Slots(d)| && a in Slots(d)[j].Addresses() && a in Slots(d)[k].Addresses()
    ensures Commands(d, LoadFilter(slot, FlatEntry(k))).Ok? && !LoadHolds(d, dev, slot, FlatEntry(k))
  {
    FlatEntryLoads(d, slot, k);
    LoadHoldsIff(d, dev, slot, FlatEntry(k));
  }

  /** Every entry that compiles for a layout is held after a load, whatever the device and the slot. */
  ghost predicate LoadsEveryEntry(d: Descriptor) {
    forall e, dev: Device, slot | dev.Valid() && Commands(d, LoadFilter(slot, e)).Ok? :: LoadHolds(d, dev, slot, e)
  }

  /** A layout loads every entry correctly exactly when its slots are separate. */
  lemma {:induction false} LoadsEveryEntryIffSeparate(d: Descriptor)
    ensures LoadsEveryEntry(d) <==> Separate(Slots(d))
  {
    if Separate(Slots(d)) {
      forall e, dev: Device, slot | dev.Valid() && Commands(d, LoadFilter(slot, e)).Ok?
        ensures LoadHolds(d, dev, slot, e)
      {
        LoadHoldsIff(d, dev, slot, e);
      }
    } else {
      var j, k :| 0 <= j < k < |Slots(d)| && !(Slots(d)[j].Addresses() !! Slots(d)[k].Addresses());
      var a :| a in Slots(d)[j].Addresses() && a in Slots(d)[k].Addresses();
      var dev := UniformDevice(0, 0.0);
      SharingLosesFilters(d, dev, 1, j, k, a);
    }
  }

  lemma {:induction false} OperationWritesPresets(d: Descriptor, op: Op)
    requires op.WritesBiquads() && Commands(d, op).Ok?
    ensures forall i :: 0 <= i < |Commands(d, op).value| ==> Commands(d, op).value[i].WritesPreset()
  {
    match op
    case LoadFilter(_, e) => CompiledWritesBiquads(AsBiquads(Filters(Some(e)), d.fs).value, Slots(d));
    case ClearFilter(_) => ClearWritesPresets(d);
    case LoadBiquads(_, overwrite, inputs, outputs, bqs) => BiquadsWriteBiquads(overwrite, inputs, outputs, bqs);
  }

  /** Biquads loaded reach the slot's preset, which is active afterwards, and nothing else on the device. */
  lemma {:induction false} BiquadsAreIsolated(
      d: Descriptor, dev: Device, slot: int, overwrite: bool, inputs: seq<int>, outputs: seq<int>, bqs: seq<Option<Bq>>)
    requires dev.Valid() && SlotInRange(slot)
    ensures
      var after := DeviceStep(d, dev, LoadBiquads(slot, overwrite, inputs, outputs, bqs));
      && OthersKept(dev, after, slot)
      && after.presets[slot - 1] == WriteAll(dev.presets[slot - 1], BiquadCommands(overwrite, inputs, outputs, bqs))
  {
    var op := LoadBiquads(slot, overwrite, inputs, outputs, bqs);
    OperationWritesPresets(d, op);
    StepOnPreset(d, dev, op, BiquadCommands(overwrite, inputs, outputs, bqs));
  }

  /** A send that breaks off after any number of commands still writes only the preset it was meant for. */
  lemma {:induction false} InterruptedLoadIsIsolated(d: Descriptor, before: Device, after: Device, op: Op)
    requires before.Valid() && op.WritesBiquads() && Commands(d, op).Ok?
    requires Interrupted(before, after, op.Slot(), Commands(d, op).value)
    ensures after == before || OthersKept(before, after, op.slot)
  {
    if after != before {
      var cmds := Commands(d, op).value;
      var k :| 0 <= k <= |cmds| && after == ExecAll(Switched(before, op.Slot()), cmds[..k]);
      OperationWritesPresets(d, op);
      ExecAllOnPreset(Switched(before, op.Slot()), cmds[..k]);
    }
  }

  // ---- clears ----

  lemma {:induction false} ClearWritesPresets(d: Descriptor)
    ensures forall i :: 0 <= i < |ClearCommands(d)| ==> ClearCommands(d)[i].WritesPreset()
  {
    CompiledWritesBiquads([], Slots(d));
    ResetWritesPresets(BeqInputs(Slots(d)));
  }

  lemma {:induction false} ResetWritesPresets(channels: seq<int>)
    ensures forall i :: 0 <= i < |ResetLevels(channels)| ==> ResetLevels(channels)[i].WritesPreset()
  {
    if channels != [] { ResetWritesPresets(channels[..|channels| - 1]); }
  }

  lemma {:induction false} ResetResets(p: Preset, channels: seq<int>, ch: ChannelId)
    ensures
      var q, hit := WriteAll(p, ResetLevels(channels)), ch.side == INPUT_NAME && ch.channel in channels;
      && q.coeffs == p.coeffs && q.bypassed == p.bypassed
      && Get(q.gains, ch) == (if hit then Some(0.0) else Get(p.gains, ch))
      && Get(q.mutes, ch) == (if hit then Some(false) else Get(p.mutes, ch))
  {
    if channels != [] {
      var n := |channels| - 1;
      ResetResets(p, channels[..n], ch);
      var last := InputChannel(channels[n]);
      WriteAllAppend(p, ResetLevels(channels[..n]), [Mute(last, false), Gain(last, 0.0)]);
      WriteTwo(WriteAll(p, ResetLevels(channels[..n])), Mute(last, false), Gain(last, 0.0));
      assert channels == channels[..n] + [channels[n]];
    }
  }

  /** Some allocator slot writes this input channel. */
  ghost predicate TakesBeqInput(slots: seq<BeqFilterSlot>, c: int) {
    exists k :: 0 <= k < |slots| && slots[k].name == INPUT_NAME && c in slots[k].channels
  }

  lemma {:induction false} AddNewAdds(handled: seq<int>, channels: seq<int>, c: int)
    ensures multiset(AddNew(handled, channels))[c] ==
            if c in handled then multiset(handled)[c] else if c in channels then 1 else 0
  {
    if channels != [] {
      AddNewAdds(handled, channels[..|channels| - 1], c);
      assert channels == channels[..|channels| - 1] + [channels[|channels| - 1]];
    }
  }

  lemma {:induction false} BeqInputsOnce(slots: seq<BeqFilterSlot>, c: int)
    ensures multiset(BeqInputs(slots))[c] == if TakesBeqInput(slots, c) then 1 else 0
  {
    if slots != [] {
      var n := |slots| - 1;
      BeqInputsOnce(slots[..n], c);
      AddNewAdds(BeqInputs(slots[..n]), slots[n].channels, c);
      if TakesBeqInput(slots[..n], c) {
        var k :| 0 <= k < n && slots[..n][k].name == INPUT_NAME && c in slots[..n][k].channels;
        assert slots[k] == slots[..n][k];
      } else {
        assert forall k :: 0 <= k < n ==> slots[..n][k] == slots[k];
      }
    }
  }

  lemma {:induction false} ResetCounts(channels: seq<int>, c: int)
    ensures multiset(ResetLevels(channels))[Mute(InputChannel(c), false)] == multiset(channels)[c]
    ensures multiset(ResetLevels(channels))[Gain(InputChannel(c), 0.0)] == multiset(channels)[c]
  {
    if channels != [] {
      var n := |channels| - 1;
      var front, last := ResetLevels(channels[..n]), InputChannel(channels[n]);
      ResetCounts(channels[..n], c);
      assert channels == channels[..n] + [channels[n]];
      CountTwo(front, Mute(last, false), Gain(last, 0.0), Mute(InputChannel(c), false));
      CountTwo(front, Mute(last, false), Gain(last, 0.0), Gain(InputChannel(c), 0.0));
    }
  }

  lemma {:induction false} CountTwo(front: seq<Command>, c1: Command, c2: Command, c: Command)
    ensures multiset(front + [c1, c2])[c] == multiset(front)[c] + (if c == c1 then 1 else 0) + (if c == c2 then 1
        else 0)
  {
    assert front + [c1, c2] == front + [c1] + [c2];
  }

  /** A clear sends one unmute and one zero gain for each input channel that takes BEQ, and none for any other. */
  lemma {:induction false} ClearResetsEachInputOnce(d: Descriptor, c: int)
    ensures
      var sent, times := multiset(ClearCommands(d)), if TakesBeqInput(Slots(d), c) then 1 else 0;
      sent[Mute(InputChannel(c), false)] == times && sent[Gain(InputChannel(c), 0.0)] == times
  {
    var inputs := BeqInputs(Slots(d));
    BeqInputsOnce(Slots(d), c);
    ResetCounts(inputs, c);
    var silenced := Compiled([], Slots(d));
    CompiledWritesBiquads([], Slots(d));
    assert Mute(InputChannel(c), false) !in silenced && Gain(InputChannel(c), 0.0) !in silenced;
  }

  /** What a clear leaves in its preset: every allocator biquad bypassed with its coefficients kept, every BEQ input
      open at 0 dB, everything else as it was. */
  ghost predicate Cleared(p: Preset, q: Preset, slots: seq<BeqFilterSlot>) {
    && q.coeffs == p.coeffs && Holds(q, [], slots) && BystandersKept(p, q, slots)
    && (forall ch: ChannelId :: LevelCleared(p, q, slots, ch))
  }

  ghost predicate LevelCleared(p: Preset, q: Preset, slots: seq<BeqFilterSlot>, ch: ChannelId) {
    var hit := ch.side == INPUT_NAME && TakesBeqInput(slots, ch.channel);
    && Get(q.gains, ch) == (if hit then Some(0.0) else Get(p.gains, ch))
    && Get(q.mutes, ch) == (if hit then Some(false) else Get(p.mutes, ch))
  }

  lemma {:induction false} ResetClears(p: Preset, mid: Preset, slots: seq<BeqFilterSlot>)
    requires mid.gains == p.gains && mid.mutes == p.mutes
    ensures
      var q := WriteAll(mid, ResetLevels(BeqInputs(slots)));
      q.coeffs == mid.coeffs && q.bypassed == mid.bypassed && forall ch: ChannelId :: LevelCleared(p, q, slots, ch)
  {
    var inputs := BeqInputs(slots);
    var q := WriteAll(mid, ResetLevels(inputs));
    forall ch: ChannelId
      ensures LevelCleared(p, q, slots, ch)
    {
      ResetResets(mid, inputs, ch);
      BeqInputsOnce(slots, ch.channel);
    }
    ResetResets(mid, inputs, InputChannel(0));
  }

  lemma {:induction false} ClearClears(p: Preset, slots: seq<BeqFilterSlot>)
    ensures Cleared(p, WriteAll(p, ClearSlots(slots)), slots)
  {
    var mid := WriteAll(p, Compiled([], slots));
    assert Holds(mid, [], slots) by { LoadIsCorrectIffNoClash(p, [], slots); }
    CompiledKeepsBystanders(p, [], slots);
    assert mid.coeffs == p.coeffs by {
      CompiledSettles(p, [], slots);
      SilencingKeepsCoeffs(p, slots);
    }
    WriteAllAppend(p, Compiled([], slots), ResetLevels(BeqInputs(slots)));
    ResetClears(p, mid, slots);
  }

  lemma {:induction false} SilencingKeepsCoeffs(p: Preset, slots: seq<BeqFilterSlot>)
    ensures Settled(p, [], slots).coeffs == p.coeffs
    decreases slots
  {
    if slots != [] { SilencingKeepsCoeffs(Silenced(p, slots[0]), slots[1..]); }
  }

  lemma {:induction false} ClearIsIsolated(d: Descriptor, dev: Device, slot: int)
    requires dev.Valid() && SlotInRange(slot)
    ensures
      var after := DeviceStep(d, dev, ClearFilter(slot));
      OthersKept(dev, after, slot) && Cleared(dev.presets[slot - 1], after.presets[slot - 1], Slots(d))
  {
    ClearWritesPresets(d);
    StepOnPreset(d, dev, ClearFilter(slot), ClearCommands(d));
    ClearClears(dev.presets[slot - 1], Slots(d));
  }

  // ---- history ----

  /** Two presets sound the same through the allocator's biquads: the same ones live, with the same coefficients. */
  ghost predicate SameBeq(p: Preset, q: Preset, slots: seq<BeqFilterSlot>) {
    forall k, a :: 0 <= k < |slots| && a in slots[k].Addresses() ==>
      && Get(p.bypassed, a) == Get(q.bypassed, a)
      && (Get(p.bypassed, a) == Some(false) ==> Get(p.coeffs, a) == Get(q.coeffs, a))
  }

  predicate LoadOrClear(op: Op) { op.LoadFilter? || op.ClearFilter? }

  /** The device after a run of operations. */
  function DeviceAfter(d: Descriptor, dev: Device, ops: seq<Op>): Device
    requires forall i :: 0 <= i < |ops| ==> Commands(d, ops[i]).Ok?
  {
    if ops == [] then dev else
    var n := |ops| - 1;
    DeviceStep(d, DeviceAfter(d, dev, ops[..n]), ops[n])
  }

  lemma {:induction false} DeviceAfterValid(d: Descriptor, dev: Device, ops: seq<Op>)
    requires dev.Valid() && forall i :: 0 <= i < |ops| ==> Commands(d, ops[i]).Ok?
    ensures DeviceAfter(d, dev, ops).Valid()
  {
    if ops != [] {
      var n := |ops| - 1;
      DeviceAfterValid(d, dev, ops[..n]);
      ExecAllValid(Switched(DeviceAfter(d, dev, ops[..n]), ops[n].Slot()), Commands(d, ops[n]).value);
    }
  }

  lemma {:induction false} SameLoadSameBiquad(
      p: Preset, q: Preset, filters: seq<Coeffs>, slots: seq<BeqFilterSlot>, a: Address)
    requires |filters| <= |slots| && Owner(slots, a).Some?
    ensures
      var p', q' := WriteAll(p, Compiled(filters, slots)), WriteAll(q, Compiled(filters, slots));
      && Get(p'.bypassed, a) == Get(q'.bypassed, a)
      && (Get(p'.bypassed, a) == Some(false) ==> Get(p'.coeffs, a) == Get(q'.coeffs, a))
  {
    LastOwnerDecides(p, filters, slots, a);
    LastOwnerDecides(q, filters, slots, a);
    var o := Owner(slots, a).value;
    OwnerIsLast(slots, a);
    if o < |filters| {
      assert slots[..|filters|][o] == slots[o];
      OwnerIsLast(slots[..|filters|], a);
    }
  }

  lemma {:induction false} SameLoadSameBeq(p: Preset, q: Preset, filters: seq<Coeffs>, slots: seq<BeqFilterSlot>)
    requires |filters| <= |slots|
    ensures SameBeq(WriteAll(p, Compiled(filters, slots)), WriteAll(q, Compiled(filters, slots)), slots)
  {
    var p', q' := WriteAll(p, Compiled(filters, slots)), WriteAll(q, Compiled(filters, slots));
    forall k, a | 0 <= k < |slots| && a in slots[k].Addresses()
      ensures Get(p'.bypassed, a) == Get(q'.bypassed, a)
      ensures Get(p'.bypassed, a) == Some(false) ==> Get(p'.coeffs, a) == Get(q'.coeffs, a)
    {
      OwnerIsLast(slots, a);
      SameLoadSameBiquad(p, q, filters, slots, a);
    }
  }

  lemma {:induction false} LoadDecides(d: Descriptor, dev1: Device, dev2: Device, op: Op, filters: seq<Coeffs>)
    requires dev1.Valid() && dev2.Valid() && op.LoadFilter? && |filters| <= |Slots(d)|
    requires Commands(d, op) == Ok(Compiled(filters, Slots(d)))
    ensures OthersKept(dev1, DeviceStep(d, dev1, op), op.slot) && OthersKept(dev2, DeviceStep(d, dev2, op), op.slot)
    ensures SameBeq(DeviceStep(d, dev1, op).presets[op.slot - 1], DeviceStep(d, dev2, op).presets[op.slot - 1],
        Slots(d))
  {
    var slots := Slots(d);
    CompiledWritesBiquads(filters, slots);
    StepOnPreset(d, dev1, op, Compiled(filters, slots));
    StepOnPreset(d, dev2, op, Compiled(filters, slots));
    SameLoadSameBeq(dev1.presets[op.slot - 1], dev2.presets[op.slot - 1], filters, slots);
  }

  lemma {:induction false} ClearDecides(d: Descriptor, dev1: Device, dev2: Device, slot: int)
    requires dev1.Valid() && dev2.Valid() && SlotInRange(slot)
    ensures var op := ClearFilter(slot);
            && OthersKept(dev1, DeviceStep(d, dev1, op), slot) && OthersKept(dev2, DeviceStep(d, dev2, op), slot)
            && SameBeq(DeviceStep(d, dev1, op).presets[slot - 1], DeviceStep(d, dev2, op).presets[slot - 1], Slots(d))
  {
    ClearIsIsolated(d, dev1, slot);
    ClearIsIsolated(d, dev2, slot);
    AllBypassedIsSame(DeviceStep(d, dev1, ClearFilter(slot)).presets[slot - 1],
                      DeviceStep(d, dev2, ClearFilter(slot)).presets[slot - 1], Slots(d));
  }

  lemma {:induction false} AllBypassedIsSame(p: Preset, q: Preset, slots: seq<BeqFilterSlot>)
    requires Holds(p, [], slots) && Holds(q, [], slots)
    ensures SameBeq(p, q, slots)
  {
  }

  /** One load or clear fixes a preset's BEQ, whatever the preset held. */
  lemma {:induction false} LastOperationDecides(d: Descriptor, dev1: Device, dev2: Device, op: Op)
    requires dev1.Valid() && dev2.Valid() && LoadOrClear(op) && Commands(d, op).Ok?
    ensures OthersKept(dev1, DeviceStep(d, dev1, op), op.slot) && OthersKept(dev2, DeviceStep(d, dev2, op), op.slot)
    ensures SameBeq(DeviceStep(d, dev1, op).presets[op.slot - 1], DeviceStep(d, dev2, op).presets[op.slot - 1],
        Slots(d))
  {
    match op
    case ClearFilter(slot) => ClearDecides(d, dev1, dev2, slot);
    case LoadFilter(_, e) => LoadDecides(d, dev1, dev2, op, AsBiquads(Filters(Some(e)), d.fs).value);
  }

  /** Commands that write neither coefficients nor bypasses leave every preset's biquads alone. */
  lemma {:induction false} LevelsKeepBiquads(dev: Device, cmds: seq<Command>, p: nat)
    requires p < |dev.presets| && forall i :: 0 <= i < |cmds| ==> !cmds[i].SetBiquad? && !cmds[i].Bypass?
    ensures
      var after := ExecAll(dev, cmds);
      && |after.presets| == |dev.presets|
      && after.presets[p].coeffs == dev.presets[p].coeffs && after.presets[p].bypassed == dev.presets[p].bypassed
    decreases cmds
  {
    if cmds != [] {
      assert !cmds[0].SetBiquad? && !cmds[0].Bypass?;
      LevelsKeepBiquads(Exec(dev, cmds[0]), cmds[1..], p);
    }
  }

  /** Whatever writes biquads of other slots, and activations, gains and mutes, leave a slot's BEQ alone. */
  lemma {:induction false} OtherOperationSounds(d: Descriptor, dev: Device, op: Op, slot: int)
    requires dev.Valid() && Commands(d, op).Ok? && SlotInRange(slot) && (op.WritesBiquads() ==> op.slot != slot)
    ensures SlotSounds(DeviceStep(d, dev, op), dev, slot, Slots(d))
  {
    if op.WritesBiquads() {
      OperationWritesPresets(d, op);
      StepOnPreset(d, dev, op, Commands(d, op).value);
    } else {
      LevelsKeepBiquads(Switched(dev, op.Slot()), Commands(d, op).value, slot - 1);
    }
  }

  /** Two devices agree on the BEQ of a slot. */
  ghost predicate SlotSounds(a: Device, b: Device, slot: int, slots: seq<BeqFilterSlot>) {
    |a.presets| == |b.presets| == PRESETS && SlotInRange(slot)
        && SameBeq(a.presets[slot - 1], b.presets[slot - 1], slots)
  }

  lemma {:induction false} SoundsOnwards(a: Device, b: Device, c: Device, slot: int, slots: seq<BeqFilterSlot>)
    requires SlotSounds(a, b, slot, slots) && SlotSounds(b, c, slot, slots)
    ensures SlotSounds(a, c, slot, slots)
  {
    SameBeqOnwards(a.presets[slot - 1], b.presets[slot - 1], c.presets[slot - 1], slots);
  }

  lemma {:induction false} SameBeqOnwards(p: Preset, q: Preset, r: Preset, slots: seq<BeqFilterSlot>)
    requires SameBeq(p, q, slots) && SameBeq(q, r, slots)
    ensures SameBeq(p, r, slots)
  {
  }

  lemma {:induction false} AfterOneMore(d: Descriptor, dev: Device, ops: seq<Op>)
    requires dev.Valid() && ops != [] && forall i :: 0 <= i < |ops| ==> Commands(d, ops[i]).Ok?
    ensures
      var n := |ops| - 1;
      DeviceAfter(d, dev, ops[..n]).Valid() && DeviceAfter(d, dev, ops) ==
          DeviceStep(d, DeviceAfter(d, dev, ops[..n]), ops[n])
  {
    DeviceAfterValid(d, dev, ops[..|ops| - 1]);
  }

  lemma {:induction false} LastStepSounds(d: Descriptor, before: Device, other: Device, op: Op)
    requires before.Valid() && other.Valid() && LoadOrClear(op) && Commands(d, op).Ok?
    ensures SlotSounds(DeviceStep(d, before, op), DeviceStep(d, other, op), op.slot, Slots(d))
  {
    LastOperationDecides(d, before, other, op);
  }

  /** No later operation writes biquads of the slot of the k-th. */
  predicate LastOfItsSlot(ops: seq<Op>, k: nat) {
    && k < |ops| && LoadOrClear(ops[k])
    && forall i :: k < i < |ops| && ops[i].WritesBiquads() ==> ops[i].slot != ops[k].slot
  }

  /** Wherever a run loads or clears a slot, with no biquads written to it later, the slot's BEQ ends as that operation
      alone leaves it on any other device, whatever came before it and whatever else follows, even where slots
      clash. */
  lemma {:induction false} HistoryIsForgotten(d: Descriptor, dev: Device, other: Device, ops: seq<Op>, k: nat)
    requires dev.Valid() && other.Valid() && forall i :: 0 <= i < |ops| ==> Commands(d, ops[i]).Ok?
    requires LastOfItsSlot(ops, k)
    ensures SlotSounds(DeviceAfter(d, dev, ops), DeviceStep(d, other, ops[k]), ops[k].slot, Slots(d))
    decreases |ops|
  {
    AfterOneMore(d, dev, ops);
    var n := |ops| - 1;
    var before := DeviceAfter(d, dev, ops[..n]);
    if k == n {
      LastStepSounds(d, before, other, ops[n]);
    } else {
      HistoryIsForgotten(d, dev, other, ops[..n], k);
      OtherOperationSounds(d, before, ops[n], ops[k].slot);
      SoundsOnwards(DeviceStep(d, before, ops[n]), before, DeviceStep(d, other, ops[k]), ops[k].slot, Slots(d));
    }
  }

  // ---- the record simulates the device ----

  ghost predicate SlotAgrees(s: SlotView, p: Preset, n: nat) {
    && |s.gains| == n && |s.mutes| == n
    && (forall c :: 0 <= c < n ==>
          Get(p.gains, InputChannel(c)) == Some(TwoDecimals(s.gains[c]))
              && Get(p.mutes, InputChannel(c)) == Some(s.mutes[c]))
  }

  /** The record shows the device up to the rounding of printed gains, with exactly its active slot marked active. */
  ghost predicate Agrees(r: Record, dev: Device, n: nat) {
    && dev.Valid() && |r.slots| == PRESETS
    && r.activeSlot == dev.active + 1 && r.mute == dev.mute && dev.volume == TwoDecimals(r.volume)
    && (forall i :: 0 <= i < PRESETS ==>
        (r.slots[i].active <==> i == dev.active)
        && SlotAgrees(r.slots[i], dev.presets[i], n))
  }

  /** Every channel of the record is an input that takes BEQ. */
  ghost predicate CoversInputs(d: Descriptor) {
    forall c :: 0 <= c < d.Inputs() ==> TakesBeqInput(Slots(d), c)
  }

  /** Where the record can follow: levels of all channels at once only if there are at most the two that are sent, and
      clears only if they reset every channel recorded. */
  ghost predicate Followed(d: Descriptor, op: Op) {
    && ((op.SetMute? || op.SetGain?) && op.target.Some? && op.channel.None? ==> d.Inputs() <= 2)
    && (op.ClearFilter? ==> CoversInputs(d))
  }

  /** Writing one slot and its preset alone, and switching to them, keeps the agreement if the two agree. */
  lemma {:induction false} SlotFollows(r: Record, s: SlotView, dev: Device, after: Device, slot: int, n: nat)
    requires Agrees(r, dev, n) && SlotInRange(slot) && OthersKept(dev, after, slot)
    requires SlotAgrees(s, after.presets[slot - 1], n)
    ensures Agrees(Activated(WithSlot(r, slot, s), slot), after, n)
  {
  }

  lemma {:induction false} GainCommandsFollow(s: SlotView, p: Preset, channel: Option<int>, gain: real, n: nat)
    requires SlotAgrees(s, p, n) && -72.0 <= gain <= 12.0
    requires if channel.Some? then 1 <= channel.value <= n else n <= 2
    ensures
      var cmds := GainCommands(gain, Some(1), ChannelIndex(channel)).value;
      SlotAgrees(s.(gains := SetChannel(s.gains, channel, gain)), WriteAll(p, cmds), n)
  {
    var cmds := GainCommands(gain, Some(1), ChannelIndex(channel)).value;
    if channel.Some? { WriteTwo(p, cmds[0], cmds[0]); } else { WriteTwo(p, cmds[0], cmds[1]); }
  }

  lemma {:induction false} MuteCommandsFollow(s: SlotView, p: Preset, channel: Option<int>, on: bool, n: nat)
    requires SlotAgrees(s, p, n)
    requires if channel.Some? then 1 <= channel.value <= n else n <= 2
    ensures
      var cmds := MuteCommands(on, Some(1), ChannelIndex(channel));
      SlotAgrees(s.(mutes := SetChannel(s.mutes, channel, on)), WriteAll(p, cmds), n)
  {
    var cmds := MuteCommands(on, Some(1), ChannelIndex(channel));
    if channel.Some? { WriteTwo(p, cmds[0], cmds[0]); } else { WriteTwo(p, cmds[0], cmds[1]); }
  }

  /** A gain set in a preset, and in the record of its slot. */
  lemma {:induction false} GainReaches(
      d: Descriptor, s: SlotView, dev: Device, slot: int, channel: Option<int>, gain: real)
    requires dev.Valid() && SlotInRange(slot) && SlotAgrees(s, dev.presets[slot - 1], d.Inputs())
        && -72.0 <= gain <= 12.0
    requires if channel.Some? then 1 <= channel.value <= d.Inputs() else d.Inputs() <= 2
    ensures var after := DeviceStep(d, dev, SetGain(Some(slot), channel, gain));
      OthersKept(dev, after, slot) && SlotAgrees(s.(gains := SetChannel(s.gains, channel, gain)),
          after.presets[slot - 1], d.Inputs())
  {
    var op := SetGain(Some(slot), channel, gain);
    StepOnPreset(d, dev, op, Commands(d, op).value);
    GainCommandsFollow(s, dev.presets[slot - 1], channel, gain, d.Inputs());
  }

  lemma {:induction false} GainFollows(
      d: Descriptor, r: Record, dev: Device, slot: int, channel: Option<int>, gain: real)
    requires Agrees(r, dev, d.Inputs()) && SlotInRange(slot) && KnownChannel(r, Some(slot), channel)
    requires -72.0 <= gain <= 12.0 && (channel.None? ==> d.Inputs() <= 2)
    ensures Agrees(RecordGain(r, Some(slot), channel, gain), DeviceStep(d, dev, SetGain(Some(slot), channel, gain)),
        d.Inputs())
  {
    var s := r.slots[slot - 1];
    assert SlotAgrees(s, dev.presets[slot - 1], d.Inputs());
    GainReaches(d, s, dev, slot, channel, gain);
    SlotFollows(r, s.(gains := SetChannel(s.gains, channel, gain)), dev,
        DeviceStep(d, dev, SetGain(Some(slot), channel, gain)),
                slot, d.Inputs());
  }

  lemma {:induction false} MuteReaches(
      d: Descriptor, s: SlotView, dev: Device, slot: int, channel: Option<int>, on: bool)
    requires dev.Valid() && SlotInRange(slot) && SlotAgrees(s, dev.presets[slot - 1], d.Inputs())
    requires if channel.Some? then 1 <= channel.value <= d.Inputs() else d.Inputs() <= 2
    ensures var after := DeviceStep(d, dev, SetMute(Some(slot), channel, on));
      OthersKept(dev, after, slot) && SlotAgrees(s.(mutes := SetChannel(s.mutes, channel, on)),
          after.presets[slot - 1], d.Inputs())
  {
    var op := SetMute(Some(slot), channel, on);
    StepOnPreset(d, dev, op, Commands(d, op).value);
    MuteCommandsFollow(s, dev.presets[slot - 1], channel, on, d.Inputs());
  }

  lemma {:induction false} MuteFollows(d: Descriptor, r: Record, dev: Device, slot: int, channel: Option<int>, on: bool)
    requires Agrees(r, dev, d.Inputs()) && SlotInRange(slot) && KnownChannel(r, Some(slot), channel)
    requires channel.None? ==> d.Inputs() <= 2
    ensures Agrees(RecordMute(r, Some(slot), channel, on), DeviceStep(d, dev, SetMute(Some(slot), channel, on)),
        d.Inputs())
  {
    var s := r.slots[slot - 1];
    assert SlotAgrees(s, dev.presets[slot - 1], d.Inputs());
    MuteReaches(d, s, dev, slot, channel, on);
    SlotFollows(r, s.(mutes := SetChannel(s.mutes, channel, on)), dev,
        DeviceStep(d, dev, SetMute(Some(slot), channel, on)),
                slot, d.Inputs());
  }

  lemma {:induction false} MasterFollows(d: Descriptor, r: Record, dev: Device, op: Op)
    requires Agrees(r, dev, d.Inputs()) && (op.SetMute? || op.SetGain?) && op.target.None? && Commands(d, op).Ok?
    ensures Agrees(Recorded(op, r), DeviceStep(d, dev, op), d.Inputs())
  {
    var cmds := Commands(d, op).value;
    assert ExecAll(dev, cmds) == Exec(dev, cmds[0]);
  }

  lemma {:induction false} LoadFollows(d: Descriptor, r: Record, dev: Device, slot: int, e: Entry)
    requires Agrees(r, dev, d.Inputs()) && Commands(d, LoadFilter(slot, e)).Ok?
    ensures SlotInRange(slot)
    ensures Agrees(RecordLoaded(r, slot, e.title, Some(e.author)), DeviceStep(d, dev, LoadFilter(slot, e)), d.Inputs())
  {
    LoadIsIsolated(d, dev, slot, e);
    var s := r.slots[slot - 1].(last := e.title, author := Some(e.author));
    SlotFollows(r, s, dev, DeviceStep(d, dev, LoadFilter(slot, e)), slot, d.Inputs());
  }

  lemma {:induction false} ClearFollows(d: Descriptor, r: Record, dev: Device, slot: int)
    requires Agrees(r, dev, d.Inputs()) && SlotInRange(slot) && CoversInputs(d)
    ensures Agrees(RecordCleared(r, slot), DeviceStep(d, dev, ClearFilter(slot)), d.Inputs())
  {
    var after := DeviceStep(d, dev, ClearFilter(slot));
    ClearIsIsolated(d, dev, slot);
    forall c | 0 <= c < d.Inputs()
      ensures LevelCleared(dev.presets[slot - 1], after.presets[slot - 1], Slots(d), InputChannel(c))
    {
    }
    assert TwoDecimals(0.0) == 0.0;
    SlotFollows(r, SlotCleared(r.slots[slot - 1]), dev, after, slot, d.Inputs());
  }

  lemma {:induction false} BiquadsFollow(d: Descriptor, r: Record, dev: Device, op: Op)
    requires Agrees(r, dev, d.Inputs()) && op.LoadBiquads? && SlotInRange(op.slot)
    ensures Agrees(RecordBiquads(r, op.slot, op.inputs), DeviceStep(d, dev, op), d.Inputs())
  {
    BiquadsAreIsolated(d, dev, op.slot, op.overwrite, op.inputs, op.outputs, op.biquads);
    BiquadsReachPreset(dev.presets[op.slot - 1], op.overwrite, op.inputs, op.outputs, op.biquads);
    var s := r.slots[op.slot - 1];
    var shown := if op.inputs != [] then s.(last := "CUSTOM", author := None) else s;
    SlotFollows(r, shown, dev, DeviceStep(d, dev, op), op.slot, d.Inputs());
    assert WithSlot(r, op.slot, s) == r;
  }

  lemma {:induction false} StepFollows(d: Descriptor, r: Record, dev: Device, op: Op)
    requires Agrees(r, dev, d.Inputs())
    requires Commands(d, op).Ok? && Recordable(op, r) && Followed(d, op)
    ensures Agrees(Recorded(op, r), DeviceStep(d, dev, op), d.Inputs())
  {
    if op.Slot().None? {
      MasterFollows(d, r, dev, op);
      return;
    }
    match op
    case SetMute(slot, channel, on) => MuteFollows(d, r, dev, slot.value, channel, on);
    case SetGain(slot, channel, gain) => GainFollows(d, r, dev, slot.value, channel, gain);
    case Activate(slot) => SlotFollows(r, r.slots[slot - 1], dev, DeviceStep(d, dev, op), slot, d.Inputs());
    case LoadFilter(slot, e) => LoadFollows(d, r, dev, slot, e);
    case ClearFilter(slot) => ClearFollows(d, r, dev, slot);
    case LoadBiquads(_, _, _, _, _) => BiquadsFollow(d, r, dev, op);
  }

  /** The record after a run of operations that all succeed and can be followed; None if one does not. */
  ghost function RecordAfter(d: Descriptor, r: Record, ops: seq<Op>): Option<Record> {
    if ops == [] then Some(r) else
    var n := |ops| - 1;
    match RecordAfter(d, r, ops[..n])
    case None => None
    case Some(before) =>
      if Commands(d, ops[n]).Ok? && Recordable(ops[n], before) && Followed(d, ops[n])
          then Some(Recorded(ops[n], before))
      else None
  }

  lemma {:induction false} AllSend(d: Descriptor, r: Record, ops: seq<Op>)
    requires RecordAfter(d, r, ops).Some?
    ensures forall i :: 0 <= i < |ops| ==> Commands(d, ops[i]).Ok?
  {
    if ops != [] {
      AllSend(d, r, ops[..|ops| - 1]);
      assert ops == ops[..|ops| - 1] + [ops[|ops| - 1]];
    }
  }

  /** Over any run of successful operations the record and the device never part. */
  lemma {:induction false} RecordSimulatesDevice(d: Descriptor, r: Record, dev: Device, ops: seq<Op>)
    requires Agrees(r, dev, d.Inputs()) && RecordAfter(d, r, ops).Some?
    ensures forall i :: 0 <= i < |ops| ==> Commands(d, ops[i]).Ok?
    ensures Agrees(RecordAfter(d, r, ops).value, DeviceAfter(d, dev, ops), d.Inputs())
  {
    AllSend(d, r, ops);
    if ops != [] {
      var n := |ops| - 1;
      RecordSimulatesDevice(d, r, dev, ops[..n]);
      StepFollows(d, RecordAfter(d, r, ops[..n]).value, DeviceAfter(d, dev, ops[..n]), ops[n]);
    }
  }

  // ---- sends that break off ----

  /** The levels of the recorded inputs, in every preset, and the master section are as they were. */
  ghost predicate LevelsKept(before: Device, after: Device, n: nat) {
    && |after.presets| == |before.presets| && after.volume == before.volume && after.mute == before.mute
    && (forall i, c :: 0 <= i < |before.presets| && 0 <= c < n ==>
          && Get(after.presets[i].gains, InputChannel(c)) == Get(before.presets[i].gains, InputChannel(c))
          && Get(after.presets[i].mutes, InputChannel(c)) == Get(before.presets[i].mutes, InputChannel(c)))
  }

  /** A record with the levels it had, and one slot shown active. */
  ghost predicate SameLevels(r: Record, r': Record) {
    && |r'.slots| == |r.slots| == PRESETS && r'.volume == r.volume && r'.mute == r.mute
    && (forall i :: 0 <= i < PRESETS ==>
          && r'.slots[i].gains == r.slots[i].gains && r'.slots[i].mutes == r.slots[i].mutes
          && (r'.slots[i].active <==> i + 1 == r'.activeSlot))
  }

  lemma {:induction false} SameLevelsAgreeIff(r: Record, dev: Device, r': Record, dev': Device, n: nat)
    requires Agrees(r, dev, n) && SameLevels(r, r') && dev'.Valid()
    ensures Agrees(r', dev', n) <==> r'.activeSlot == dev'.active + 1 && LevelsKept(dev, dev', n)
  {
    if Agrees(r', dev', n) {
      forall i, c | 0 <= i < PRESETS && 0 <= c < n
        ensures Get(dev'.presets[i].gains, InputChannel(c)) == Get(dev.presets[i].gains, InputChannel(c))
        ensures Get(dev'.presets[i].mutes, InputChannel(c)) == Get(dev.presets[i].mutes, InputChannel(c))
      {
        assert SlotAgrees(r.slots[i], dev.presets[i], n) && SlotAgrees(r'.slots[i], dev'.presets[i], n);
      }
    } else if r'.activeSlot == dev'.active + 1 && LevelsKept(dev, dev', n) {
      forall i | 0 <= i < PRESETS
        ensures SlotAgrees(r'.slots[i], dev'.presets[i], n)
      {
        assert SlotAgrees(r.slots[i], dev.presets[i], n);
      }
    }
  }

  lemma {:induction false} InterruptedIsValid(before: Device, after: Device, slot: Option<int>, cmds: seq<Command>)
    requires before.Valid() && Interrupted(before, after, slot, cmds)
    ensures after.Valid()
  {
    if after != before {
      var k :| 0 <= k <= |cmds| && after == ExecAll(Switched(before, slot), cmds[..k]);
      ExecAllValid(Switched(before, slot), cmds[..k]);
    }
  }

  /** After a send that broke off, record and device still agree exactly if the device is on the preset the record then
      shows, and no level moved. */
  lemma {:induction false} FailedSendAgreesIff(d: Descriptor, op: Op, r: Record, dev: Device, r': Record, dev': Device)
    requires Agrees(r, dev, d.Inputs()) && Outcome(d, op, r, dev, Err(SendFailed), r', dev')
    ensures Agrees(r', dev', d.Inputs()) <==>
            dev'.active == (if op.WritesBiquads() then op.slot - 1 else dev.active) && LevelsKept(dev, dev', d.Inputs())
  {
    InterruptedIsValid(dev, dev', op.Slot(), Commands(d, op).value);
    SameLevelsAgreeIff(r, dev, r', dev', d.Inputs());
  }

  /** Commands that set no level leave every level alone. */
  lemma {:induction false} BiquadsKeepLevels(dev: Device, cmds: seq<Command>, n: nat)
    requires forall i :: 0 <= i < |cmds| ==> cmds[i].WritesBiquad()
    ensures LevelsKept(dev, ExecAll(dev, cmds), n) && ExecAll(dev, cmds).active == dev.active
    decreases cmds
  {
    if cmds != [] {
      assert cmds[0].WritesBiquad();
      BiquadsKeepLevels(Exec(dev, cmds[0]), cmds[1..], n);
      OneBiquadKeepsLevels(dev, cmds[0], n);
      LevelsKeptOnwards(dev, Exec(dev, cmds[0]), ExecAll(dev, cmds), n);
    }
  }

  lemma {:induction false} OneBiquadKeepsLevels(dev: Device, c: Command, n: nat)
    requires c.WritesBiquad()
    ensures LevelsKept(dev, Exec(dev, c), n)
  {
  }

  lemma {:induction false} LevelsKeptOnwards(a: Device, b: Device, c: Device, n: nat)
    requires LevelsKept(a, b, n) && LevelsKept(b, c, n)
    ensures LevelsKept(a, c, n)
  {
  }

  /** A load, of an entry or of biquads, that breaks off keeps the two together exactly if the device was switched, or
      was on the preset already: the record shows the slot as active in any case. */
  lemma {:induction false} FailedLoadAgreesIff(d: Descriptor, op: Op, r: Record, dev: Device, r': Record, dev': Device)
    requires Agrees(r, dev, d.Inputs()) && Outcome(d, op, r, dev, Err(SendFailed), r', dev')
    requires op.LoadFilter? || op.LoadBiquads?
    ensures Agrees(r', dev', d.Inputs()) <==> dev'.active == op.slot - 1
    ensures dev'.active == op.slot - 1 || dev' == dev
  {
    FailedSendAgreesIff(d, op, r, dev, r', dev');
    var cmds := Commands(d, op).value;
    LoadWritesBiquads(d, op);
    if dev' != dev {
      var k :| 0 <= k <= |cmds| && dev' == ExecAll(Switched(dev, op.Slot()), cmds[..k]);
      BiquadsKeepLevels(Switched(dev, op.Slot()), cmds[..k], d.Inputs());
      LevelsKeptOnwards(dev, Switched(dev, op.Slot()), dev', d.Inputs());
    }
  }

  lemma {:induction false} LoadWritesBiquads(d: Descriptor, op: Op)
    requires (op.LoadFilter? || op.LoadBiquads?) && Commands(d, op).Ok?
    ensures forall i :: 0 <= i < |Commands(d, op).value| ==> Commands(d, op).value[i].WritesBiquad()
  {
    match op
    case LoadFilter(_, e) => CompiledWritesBiquads(AsBiquads(Filters(Some(e)), d.fs).value, Slots(d));
    case LoadBiquads(_, overwrite, inputs, outputs, bqs) => BiquadsWriteBiquads(overwrite, inputs, outputs, bqs);
  }

  /** An activation that breaks off keeps them together exactly if it left the device where it was. */
  lemma {:induction false} FailedActivationAgreesIff(
      d: Descriptor, slot: int, r: Record, dev: Device, r': Record, dev': Device)
    requires Agrees(r, dev, d.Inputs()) && Outcome(d, Activate(slot), r, dev, Err(SendFailed), r', dev')
    ensures Agrees(r', dev', d.Inputs()) <==> dev' == dev
  {
    FailedSendAgreesIff(d, Activate(slot), r, dev, r', dev');
    if dev' != dev {
      var k :| 0 <= k <= 0 && dev' == ExecAll(Switched(dev, Some(slot)), [][..k]);
      assert dev' == Switched(dev, Some(slot));
    }
  }

  // ---- where the record parts from the device ----

  /** A start where every recorded channel is at `db` and open, and so is the device. */
  function UniformRecord(n: nat, db: real): Record {
    Record(1, 0.0, false, seq(PRESETS, i => SlotView(seq(n, c => db), seq(n, c => false), i == 0, "Empty", None)))
  }

  function UniformDevice(n: nat, db: real): Device {
    var gains := map c | 0 <= c < n :: InputChannel(c) := TwoDecimals(db);
    var mutes := map c | 0 <= c < n :: InputChannel(c) := false;
    Device(seq(PRESETS, i => Preset(map[], map[], gains, mutes)), 0, TwoDecimals(0.0), false)
  }

  lemma {:induction false} UniformAgrees(n: nat, db: real)
    ensures Agrees(UniformRecord(n, db), UniformDevice(n, db), n)
  {
    var p := UniformDevice(n, db).presets[0];
    forall c | 0 <= c < n
      ensures Get(p.gains, InputChannel(c)) == Some(TwoDecimals(db)) && Get(p.mutes, InputChannel(c)) == Some(false)
    {
      assert InputChannel(c) in p.gains && InputChannel(c) in p.mutes;
    }
  }

  /** An operation of one slot keeps record and device together wherever they start. */
  ghost predicate NeverParts(d: Descriptor, op: Op)
    requires Commands(d, op).Ok?
  {
    forall r, dev | Agrees(r, dev, d.Inputs()) && Recordable(op, r) ::
        Agrees(Recorded(op, r), DeviceStep(d, dev, op), d.Inputs())
  }

  /** A clear leaves the level of an input that takes no BEQ at what a uniform start had. */
  lemma {:induction false} ClearLeavesLevel(d: Descriptor, slot: int, c: int)
    requires SlotInRange(slot) && 0 <= c < d.Inputs() && !TakesBeqInput(Slots(d), c)
    ensures
      var after := DeviceStep(d, UniformDevice(d.Inputs(), 1.0), ClearFilter(slot));
      |after.presets| == PRESETS && Get(after.presets[slot - 1].gains, InputChannel(c)) == Some(TwoDecimals(1.0))
  {
    var dev := UniformDevice(d.Inputs(), 1.0);
    ClearIsIsolated(d, dev, slot);
    assert LevelCleared(dev.presets[slot - 1], DeviceStep(d, dev, ClearFilter(slot)).presets[slot - 1], Slots(d),
                        InputChannel(c));
    assert Get(dev.presets[slot - 1].gains, InputChannel(c)) == Some(TwoDecimals(1.0));
  }

  lemma {:induction false} ClearParts(d: Descriptor, slot: int, c: int)
    requires SlotInRange(slot) && 0 <= c < d.Inputs() && !TakesBeqInput(Slots(d), c)
    ensures !NeverParts(d, ClearFilter(slot))
  {
    var n := d.Inputs();
    var r, dev := UniformRecord(n, 1.0), UniformDevice(n, 1.0);
    UniformAgrees(n, 1.0);
    ClearLeavesLevel(d, slot, c);
    var after, recorded := DeviceStep(d, dev, ClearFilter(slot)), Recorded(ClearFilter(slot), r);
    assert recorded.slots[slot - 1].gains[c] == 0.0;
    assert !SlotAgrees(recorded.slots[slot - 1], after.presets[slot - 1], n);
    assert Recordable(ClearFilter(slot), r) && !Agrees(recorded, after, n);
  }

  /** A clear is followed on exactly the layouts whose recorded inputs all take BEQ; on any other, a recorded channel is
      shown at 0 dB while the device still holds its gain. */
  lemma {:induction false} ClearFollowedIffInputsCovered(d: Descriptor, slot: int)
    requires SlotInRange(slot)
    ensures NeverParts(d, ClearFilter(slot)) <==> CoversInputs(d)
  {
    if CoversInputs(d) {
      forall r, dev | Agrees(r, dev, d.Inputs())
        ensures Agrees(RecordCleared(r, slot), DeviceStep(d, dev, ClearFilter(slot)), d.Inputs())
      {
        ClearFollows(d, r, dev, slot);
      }
    } else {
      var c :| 0 <= c < d.Inputs() && !TakesBeqInput(Slots(d), c);
      ClearParts(d, slot, c);
    }
  }

  /** A gain for all channels of a slot is followed exactly when the record has at most two: only the first two are
      sent. */
  lemma {:induction false} GainForAllFollowedIffTwoInputs(d: Descriptor, slot: int, gain: real)
    requires SlotInRange(slot) && -72.0 <= gain <= 12.0
    ensures NeverParts(d, SetGain(Some(slot), None, gain)) <==> d.Inputs() <= 2
  {
    var op := SetGain(Some(slot), None, gain);
    var n := d.Inputs();
    if n <= 2 {
      forall r, dev | Agrees(r, dev, n) && Recordable(op, r)
        ensures Agrees(Recorded(op, r), DeviceStep(d, dev, op), n)
      {
        GainFollows(d, r, dev, slot, None, gain);
      }
    } else {
      var db := gain + 1.0;
      var r, dev := UniformRecord(n, db), UniformDevice(n, db);
      UniformAgrees(n, db);
      PrintedGainIsClose(gain);
      PrintedGainIsClose(db);
      var cmds := Commands(d, op).value;
      StepOnPreset(d, dev, op, cmds);
      WriteTwo(dev.presets[slot - 1], cmds[0], cmds[1]);
      assert Get(DeviceStep(d, dev, op).presets[slot - 1].gains, InputChannel(2)) == Some(TwoDecimals(db));
      assert Recorded(op, r).slots[slot - 1].gains[2] == gain;
      assert Recordable(op, r);
    }
  }
}
