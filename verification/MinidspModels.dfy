/** Which biquads a load reaches on each of the supported minidsp models, and with which filter. */
module MinidspModels {
  import opened Common
  import opened MinidspDevice
  import opened MinidspCommands
  import opened MinidspController
  import opened MinidspTheorems
  import opened MinidspLayouts
  import opened MinidspRoutes

  /** The sample rate a model's coefficients are for. */
  function RateOf(m: Model): string {
    match m
    case M24HD => "96000"
    case M410 => "96000"
    case M812CDSP => "192000"
    case _ => "48000"
  }

  predicate OnChannels(a: Address, side: string, channels: int, places: int) {
    a.side == side && a.group.None? && 0 <= a.channel < channels && 0 <= a.index < places
  }

  predicate OnChosen(a: Address, side: string, channels: seq<int>) {
    a.side == side && a.group.None? && a.channel in channels && 0 <= a.index < 10
  }

  predicate OnCrossover(a: Address, low: int, high: int) {
    a.side == "output" && a.group.Some? && low <= a.group.value <= high && 0 <= a.channel < 8 && 0 <= a.index < 4
  }

  /** The number of the filter a biquad shows on a model; None for a biquad BEQ never touches. */
  function FilterAt(m: Model, a: Address): Option<nat> {
    match m
    case M24HD => if OnChannels(a, "input", 2, 10) then Some(a.index) else None
    case M812CDSP => if OnChannels(a, "input", 6, 10) then Some(a.index) else None
    case MDDRC24 => if OnChannels(a, "output", 4, 10) then Some(a.index) else None
    case M410 =>
      if OnChannels(a, "input", 2, 5) then Some(a.index)
      else if OnChannels(a, "output", 8, 5) then Some(5 + a.index) else None
    case M1010(NoXo) =>
      if OnChannels(a, "input", 8, 6) then Some(a.index)
      else if OnChannels(a, "output", 8, 4) then Some(6 + a.index) else None
    case M1010(OneGroup(g)) =>
      if OnChannels(a, "input", 8, 6) then Some(a.index)
      else if OnCrossover(a, g, g) then Some(6 + a.index) else None
    case M1010(AllGroups) =>
      if OnChannels(a, "input", 8, 6) then Some(a.index)
      else if OnCrossover(a, 0, 1) then Some(6 + 2 * a.index + a.group.value) else None
    case MHTX(c, true) => if OnChosen(a, "input", c) then Some(a.index) else None
    case MHTX(c, false) => if OnChosen(a, "output", c) then Some(a.index) else None
    case MDDRC88(c) => if OnChosen(a, "output", c) then Some(a.index) else None
  }

  lemma {:induction false} InZeroTil(n: nat)
    ensures |ZeroTil(n)| == n && forall i :: 0 <= i < n ==> ZeroTil(n)[i] == i
    ensures forall x :: x in ZeroTil(n) <==> 0 <= x < n
  {
    forall x | 0 <= x < n
      ensures x in ZeroTil(n)
    {
      assert ZeroTil(n)[x] == x;
    }
  }

  lemma {:induction false} SidesDiffer()
    ensures "input" != "output" && "input" != "crossover" && "output" != "crossover"
  {
    assert "input"[0] != "output"[0] && "input"[0] != "crossover"[0] && "output"[0] != "crossover"[0];
  }

  /** A biquad of an input or output route of the shipped shape. */
  lemma {:induction false} PlainBiquad(r: PeqRoutes, channels: seq<int>, places: nat, a: Address)
    requires r.name == "input" || r.name == "output"
    requires r.groups == [] && r.channels == channels && r.beqSlots == ZeroTil(places)
    ensures IsBiquadOf(r, a) <==> a.side == r.name && a.group.None? && a.channel in channels && 0 <= a.index < places
  {
    SidesDiffer();
    InZeroTil(places);
  }

  lemma {:induction false} CrossoverBiquad(r: PeqRoutes, channels: nat, places: nat, groups: seq<int>, a: Address)
    requires r.name == "crossover" && groups != []
    requires r.groups == groups && r.channels == ZeroTil(channels) && r.beqSlots == ZeroTil(places)
    ensures IsBiquadOf(r, a) <==>
            a.side == "output" && a.group.Some? && a.group.value in groups && 0 <= a.channel < channels
                && 0 <= a.index < places
  {
    InZeroTil(channels);
    InZeroTil(places);
  }

  /** A layout's three routes and the extra one it may have. */
  lemma {:induction false} RoutesAre(d: Descriptor, a: Address)
    requires |d.extra| <= 1
    requires d.input.Some? ==> !IsBiquadOf(d.input.value, a)
    requires d.crossover.Some? ==> !IsBiquadOf(d.crossover.value, a)
    requires d.output.Some? ==> !IsBiquadOf(d.output.value, a)
    requires d.extra != [] && d.extra[0].Some? ==> !IsBiquadOf(d.extra[0].value, a)
    ensures InNoRoute(d.Routes(), a)
  {
    forall q | 0 <= q < |d.Routes()| && d.Routes()[q].Some?
      ensures !IsBiquadOf(d.Routes()[q].value, a)
    {
      assert q == 0 || q == 1 || q == 2 || d.Routes()[q] == d.extra[0];
    }
  }

  // ---- biquads no load touches ----

  lemma {:induction false} InputsAndOutputs(
      d: Descriptor, a: Address, inputs: nat, inPlaces: nat, outputs: nat, outPlaces: nat)
    requires d.extra == []
    requires d.input.Some? ==>
      d.input.value.name == "input" && d.input.value.groups == [] && d.input.value.channels == ZeroTil(inputs)
      && d.input.value.beqSlots == ZeroTil(inPlaces) && !OnChannels(a, "input", inputs, inPlaces)
    requires d.crossover.Some? ==> d.crossover.value.beqSlots == []
    requires d.output.Some? ==>
      d.output.value.name == "output" && d.output.value.groups == [] && d.output.value.channels == ZeroTil(outputs)
      && d.output.value.beqSlots == ZeroTil(outPlaces) && !OnChannels(a, "output", outputs, outPlaces)
    ensures InNoRoute(d.Routes(), a)
  {
    InZeroTil(inputs);
    InZeroTil(outputs);
    if d.input.Some? { PlainBiquad(d.input.value, ZeroTil(inputs), inPlaces, a); }
    if d.output.Some? { PlainBiquad(d.output.value, ZeroTil(outputs), outPlaces, a); }
    RoutesAre(d, a);
  }

  lemma {:induction false} TenByTenUntouched(xo: UseXo, a: Address)
    requires FilterAt(M1010(xo), a).None?
    ensures InNoRoute(LayoutOf(M1010(xo)).Routes(), a)
  {
    var d := LayoutOf(M1010(xo));
    InZeroTil(8);
    InZeroTil(2);
    PlainBiquad(d.input.value, ZeroTil(8), 6, a);
    match xo
    case NoXo => PlainBiquad(d.output.value, ZeroTil(8), 4, a); RoutesAre(d, a);
    case OneGroup(g) => CrossoverBiquad(d.crossover.value, 8, 4, [g], a); RoutesAre(d, a);
    case AllGroups => CrossoverBiquad(d.crossover.value, 8, 4, ZeroTil(2), a); RoutesAre(d, a);
  }

  lemma {:induction false} ChosenUntouched(d: Descriptor, a: Address, c: seq<int>)
    requires |d.extra| <= 1 && d.crossover.Some? && d.crossover.value.beqSlots == []
    requires d.input.Some? ==>
      d.input.value.name == "input" && d.input.value.groups == [] && d.input.value.channels == c
      && d.input.value.beqSlots == ZeroTil(10) && !OnChosen(a, "input", c)
    requires d.output.Some? ==>
      d.output.value.name == "output" && d.output.value.groups == [] && d.output.value.beqSlots == ZeroTil(10)
      && (d.output.value.channels == [] || (d.output.value.channels == c && !OnChosen(a, "output", c)))
    requires d.extra != [] && d.extra[0].Some? ==> d.extra[0].value.beqSlots == []
    ensures InNoRoute(d.Routes(), a)
  {
    if d.input.Some? { PlainBiquad(d.input.value, c, 10, a); }
    if d.output.Some? { PlainBiquad(d.output.value, d.output.value.channels, 10, a); }
    RoutesAre(d, a);
  }

  /** A biquad with no filter to show belongs to no route. */
  lemma {:induction false} Untouched(m: Model, a: Address)
    requires FilterAt(m, a).None?
    ensures InNoRoute(LayoutOf(m).Routes(), a)
  {
    var d := LayoutOf(m);
    assert ZeroTil(0) == [];
    match m
    case M24HD => InputsAndOutputs(d, a, 2, 10, 4, 0);
    case M812CDSP => InputsAndOutputs(d, a, 6, 10, 12, 0);
    case MDDRC24 => InputsAndOutputs(d, a, 0, 0, 4, 10);
    case M410 => InputsAndOutputs(d, a, 2, 5, 8, 5);
    case M1010(xo) => TenByTenUntouched(xo, a);
    case MHTX(c, _) => ChosenUntouched(d, a, c);
    case MDDRC88(c) => ChosenUntouched(d, a, c);
  }

  // ---- biquads that show a filter ----

  lemma {:induction false} InputShows(d: Descriptor, dev: Device, slot: int, e: Entry, a: Address, places: nat)
    requires dev.Valid() && Commands(d, LoadFilter(slot, e)).Ok? && Simple(d)
    requires d.input.Some? && d.input.value.groups == [] && d.input.value.beqSlots == ZeroTil(places)
    requires a.side == "input" && a.group.None? && a.channel in d.input.value.channels && 0 <= a.index < places
    ensures SlotInRange(slot) && |DeviceStep(d, dev, LoadFilter(slot, e)).presets| == PRESETS
    ensures ShowsFilter(DeviceStep(d, dev, LoadFilter(slot, e)).presets[slot - 1], a, e, d.fs, a.index)
  {
    InZeroTil(places);
    LoadFillsInputs(d, dev, slot, e, a.index, a.channel);
    assert a == Address("input", a.channel, None, a.index);
  }

  lemma {:induction false} OutputShows(
      d: Descriptor, dev: Device, slot: int, e: Entry, a: Address, places: nat, before: nat)
    requires dev.Valid() && Commands(d, LoadFilter(slot, e)).Ok? && Simple(d)
    requires d.output.Some? && d.output.value.groups == [] && d.output.value.beqSlots == ZeroTil(places)
    requires a.side == "output" && a.group.None? && a.channel in d.output.value.channels && 0 <= a.index < places
    requires before == SlotCount(d.input) + SlotCount(d.crossover)
    ensures SlotInRange(slot) && |DeviceStep(d, dev, LoadFilter(slot, e)).presets| == PRESETS
    ensures ShowsFilter(DeviceStep(d, dev, LoadFilter(slot, e)).presets[slot - 1], a, e, d.fs, before + a.index)
  {
    InZeroTil(places);
    LoadFillsOutputs(d, dev, slot, e, a.index, a.channel);
    assert a == Address("output", a.channel, None, a.index);
  }

  lemma {:induction false} CrossoverShows(
      d: Descriptor, dev: Device, slot: int, e: Entry, a: Address, places: nat, before: nat, j: nat, n: nat)
    requires dev.Valid() && Commands(d, LoadFilter(slot, e)).Ok? && Simple(d)
    requires d.crossover.Some? && d.crossover.value.beqSlots == ZeroTil(places) && j < |d.crossover.value.groups|
    requires a.side == "output" && a.group == Some(d.crossover.value.groups[j])
    requires a.channel in d.crossover.value.channels && 0 <= a.index < places
    requires before == SlotCount(d.input) && n == before + a.index * |d.crossover.value.groups| + j
    ensures SlotInRange(slot) && |DeviceStep(d, dev, LoadFilter(slot, e)).presets| == PRESETS
    ensures ShowsFilter(DeviceStep(d, dev, LoadFilter(slot, e)).presets[slot - 1], a, e, d.fs, n)
  {
    InZeroTil(places);
    LoadFillsCrossovers(d, dev, slot, e, a.index, j, a.channel);
    assert a == Address("output", a.channel, Some(d.crossover.value.groups[j]), a.index);
  }

  lemma {:induction false} TenByTenShows(xo: UseXo, dev: Device, slot: int, e: Entry, a: Address)
    requires dev.Valid() && Commands(LayoutOf(M1010(xo)), LoadFilter(slot, e)).Ok? && FilterAt(M1010(xo), a).Some?
    ensures SlotInRange(slot) && |DeviceStep(LayoutOf(M1010(xo)), dev, LoadFilter(slot, e)).presets| == PRESETS
    ensures ShowsFilter(DeviceStep(LayoutOf(M1010(xo)), dev, LoadFilter(slot, e)).presets[slot - 1], a, e, "48000",
                        FilterAt(M1010(xo), a).value)
  {
    var d := LayoutOf(M1010(xo));
    ShippedLayoutsAreSimple(M1010(xo));
    InZeroTil(8);
    InZeroTil(6);
    SidesDiffer();
    if OnChannels(a, "input", 8, 6) {
      InputShows(d, dev, slot, e, a, 6);
    } else {
      match xo
      case NoXo => OutputShows(d, dev, slot, e, a, 4, 6);
      case OneGroup(g) => CrossoverShows(d, dev, slot, e, a, 4, 6, 0, 6 + a.index);
      case AllGroups =>
        InZeroTil(2);
        CrossoverShows(d, dev, slot, e, a, 4, 6, a.group.value, 6 + 2 * a.index + a.group.value);
    }
  }

  lemma {:induction false} OthersShow(m: Model, dev: Device, slot: int, e: Entry, a: Address)
    requires dev.Valid() && Commands(LayoutOf(m), LoadFilter(slot, e)).Ok? && FilterAt(m, a).Some? && !m.M1010?
    ensures SlotInRange(slot) && |DeviceStep(LayoutOf(m), dev, LoadFilter(slot, e)).presets| == PRESETS
    ensures ShowsFilter(DeviceStep(LayoutOf(m), dev, LoadFilter(slot, e)).presets[slot - 1], a, e, RateOf(m),
                        FilterAt(m, a).value)
  {
    var d := LayoutOf(m);
    ShippedLayoutsAreSimple(m);
    SidesDiffer();
    InZeroTil(2);
    InZeroTil(4);
    InZeroTil(5);
    InZeroTil(6);
    InZeroTil(8);
    if a.side == "input" {
      InputShows(d, dev, slot, e, a, if m.M410? then 5 else 10);
    } else {
      OutputShows(d, dev, slot, e, a, if m.M410? then 5 else 10, if m.M410? then 5 else 0);
    }
  }

  /** After a load on any supported model, every biquad of its BEQ places shows its filter, and every other is as it
      was. */
  lemma {:induction false} LoadOnShippedModel(m: Model, dev: Device, slot: int, e: Entry, a: Address)
    requires dev.Valid() && Commands(LayoutOf(m), LoadFilter(slot, e)).Ok?
    ensures 1 <= slot <= 4 && |DeviceStep(LayoutOf(m), dev, LoadFilter(slot, e)).presets| == 4
    ensures
      var p, q := dev.presets[slot - 1], DeviceStep(LayoutOf(m), dev, LoadFilter(slot, e)).presets[slot - 1];
      match FilterAt(m, a)
      case Some(n) => ShowsFilter(q, a, e, RateOf(m), n)
      case None => Get(q.coeffs, a) == Get(p.coeffs, a) && Get(q.bypassed, a) == Get(p.bypassed, a)
  {
    if FilterAt(m, a).None? {
      Untouched(m, a);
      LoadKeepsOtherBiquads(LayoutOf(m), dev, slot, e, a);
    } else if m.M1010? {
      TenByTenShows(m.useXo, dev, slot, e, a);
    } else {
      OthersShow(m, dev, slot, e, a);
    }
  }

  // ---- clears ----

  lemma {:induction false} InRoute(d: Descriptor, a: Address)
    requires
      || (d.input.Some? && IsBiquadOf(d.input.value, a))
      || (d.crossover.Some? && IsBiquadOf(d.crossover.value, a))
      || (d.output.Some? && IsBiquadOf(d.output.value, a))
    ensures exists q :: 0 <= q < |d.Routes()| && d.Routes()[q].Some? && IsBiquadOf(d.Routes()[q].value, a)
  {
    assert d.Routes()[0] == d.input && d.Routes()[1] == d.crossover && d.Routes()[2] == d.output;
  }

  lemma {:induction false} TenByTenTouched(xo: UseXo, a: Address)
    requires FilterAt(M1010(xo), a).Some?
    ensures
      var d := LayoutOf(M1010(xo));
      exists q :: 0 <= q < |d.Routes()| && d.Routes()[q].Some? && IsBiquadOf(d.Routes()[q].value, a)
  {
    var d := LayoutOf(M1010(xo));
    InZeroTil(8);
    InZeroTil(2);
    PlainBiquad(d.input.value, ZeroTil(8), 6, a);
    match xo
    case NoXo => PlainBiquad(d.output.value, ZeroTil(8), 4, a); InRoute(d, a);
    case OneGroup(g) => CrossoverBiquad(d.crossover.value, 8, 4, [g], a); InRoute(d, a);
    case AllGroups => CrossoverBiquad(d.crossover.value, 8, 4, ZeroTil(2), a); InRoute(d, a);
  }

  lemma {:induction false} Touched(m: Model, a: Address)
    requires FilterAt(m, a).Some?
    ensures
      var d := LayoutOf(m);
      exists q :: 0 <= q < |d.Routes()| && d.Routes()[q].Some? && IsBiquadOf(d.Routes()[q].value, a)
  {
    if m.M1010? {
      TenByTenTouched(m.useXo, a);
    } else {
      var d, places := LayoutOf(m), if m.M410? then 5 else 10;
      SidesDiffer();
      InZeroTil(2);
      InZeroTil(4);
      InZeroTil(6);
      InZeroTil(8);
      if a.side == "input" {
        PlainBiquad(d.input.value, d.input.value.channels, places, a);
      } else {
        PlainBiquad(d.output.value, d.output.value.channels, places, a);
      }
      InRoute(d, a);
    }
  }

  /** A clear on any supported model silences exactly the biquads loads write to, and leaves their coefficients and
      every other biquad as they were. */
  lemma {:induction false} ClearOnShippedModel(m: Model, dev: Device, slot: int, a: Address)
    requires dev.Valid() && 1 <= slot <= 4
    ensures |DeviceStep(LayoutOf(m), dev, ClearFilter(slot)).presets| == 4
    ensures
      var p, q := dev.presets[slot - 1], DeviceStep(LayoutOf(m), dev, ClearFilter(slot)).presets[slot - 1];
      && Get(q.coeffs, a) == Get(p.coeffs, a)
      && Get(q.bypassed, a) == if FilterAt(m, a).Some? then Some(true) else Get(p.bypassed, a)
  {
    var d := LayoutOf(m);
    if FilterAt(m, a).Some? {
      Touched(m, a);
      var q :| 0 <= q < |d.Routes()| && d.Routes()[q].Some? && IsBiquadOf(d.Routes()[q].value, a);
      ClearBypassesRoutes(d, dev, slot, q, a);
    } else {
      Untouched(m, a);
      ClearKeepsOtherBiquads(d, dev, slot, a);
    }
  }
}
