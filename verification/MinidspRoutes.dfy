/** What loads, clears and levels leave on each biquad and channel of a minidsp, route by route. */
module MinidspRoutes {
  import opened Common
  import opened MinidspDevice
  import opened MinidspCommands
  import opened MinidspBiquads
  import opened MinidspController
  import opened MinidspTheorems
  import opened MinidspLayouts

  // ---- where a route's slots are ----

  function Width(r: PeqRoutes): nat { if r.groups == [] then 1 else |r.groups| }

  /** How many slots a route contributes. */
  function SlotCount(r: Option<PeqRoutes>): nat {
    if r.None? || r.value.channels == [] || r.value.beqSlots == [] then 0 else |r.value.beqSlots| * Width(r.value)
  }

  /** How many slots come before the q-th route's. */
  function Offset(routes: seq<Option<PeqRoutes>>, q: nat): nat
    requires q <= |routes|
  {
    if q == 0 then 0 else Offset(routes, q - 1) + SlotCount(routes[q - 1])
  }

  function GroupAt(r: PeqRoutes, j: nat): Option<int>
    requires j < Width(r)
  {
    if r.groups == [] then None else Some(r.groups[j])
  }

  lemma {:induction false} RouteSlotAt(r: PeqRoutes, indexes: seq<int>, k: nat, j: nat)
    requires k < |indexes| && j < Width(r)
    ensures |RouteSlots(r, indexes)| == |indexes| * Width(r) && k * Width(r) + j < |indexes| * Width(r)
    ensures RouteSlots(r, indexes)[k * Width(r) + j] == BeqFilterSlot(r.name, indexes[k], r.channels, GroupAt(r, j))
  {
    var n, w := |indexes| - 1, Width(r);
    RouteLength(r, indexes[..n]);
    assert |indexes| * w == n * w + w;
    if k < n {
      RouteSlotAt(r, indexes[..n], k, j);
    }
  }

  lemma {:induction false} RouteLength(r: PeqRoutes, indexes: seq<int>)
    ensures |RouteSlots(r, indexes)| == |indexes| * Width(r)
  {
    if indexes != [] {
      var n := |indexes| - 1;
      RouteLength(r, indexes[..n]);
      assert |indexes| * Width(r) == n * Width(r) + Width(r);
    }
  }

  lemma {:induction false} RoutesLength(routes: seq<Option<PeqRoutes>>)
    ensures |AllocatorSlots(routes)| == Offset(routes, |routes|)
  {
    if routes != [] {
      var n := |routes| - 1;
      RoutesLength(routes[..n]);
      OffsetIsLocal(routes, n, n);
      if routes[n].Some? { RouteLength(routes[n].value, routes[n].value.beqSlots); }
    }
  }

  lemma {:induction false} FrontLength(routes: seq<Option<PeqRoutes>>, m: nat)
    requires m <= |routes|
    ensures |AllocatorSlots(routes[..m])| == Offset(routes, m)
  {
    RoutesLength(routes[..m]);
    OffsetIsLocal(routes, m, m);
  }

  lemma {:induction false} OffsetGrows(routes: seq<Option<PeqRoutes>>, q: nat, m: nat)
    requires q < m <= |routes|
    ensures Offset(routes, q) + SlotCount(routes[q]) <= Offset(routes, m)
  {
    if q < m - 1 { OffsetGrows(routes, q, m - 1); }
  }

  lemma {:induction false} CountOfRoute(r: Option<PeqRoutes>)
    ensures |BeqSlots(r)| == SlotCount(r)
  {
    if r.Some? { RouteLength(r.value, r.value.beqSlots); }
  }

  lemma {:induction false} SlotsFit(routes: seq<Option<PeqRoutes>>, q: nat, n: nat)
    requires q < |routes| && n < |BeqSlots(routes[q])|
    ensures Offset(routes, q) + n < |AllocatorSlots(routes)|
  {
    CountOfRoute(routes[q]);
    OffsetGrows(routes, q, |routes|);
    RoutesLength(routes);
  }

  /** The n-th slot of the q-th route. */
  lemma {:induction false} SlotOfRoute(routes: seq<Option<PeqRoutes>>, q: nat, n: nat)
    requires q < |routes| && n < |BeqSlots(routes[q])| && Offset(routes, q) + n < |AllocatorSlots(routes)|
    ensures AllocatorSlots(routes)[Offset(routes, q) + n] == BeqSlots(routes[q])[n]
    decreases |routes|, 1
  {
    if q < |routes| - 1 {
      EarlierRoute(routes, |routes| - 1, q, n);
      ConcatAt(AllocatorSlots(routes[..|routes| - 1]), BeqSlots(routes[|routes| - 1]), Offset(routes, q) + n);
    } else {
      LastRoute(routes, n);
    }
  }

  lemma {:induction false} LastConcat(routes: seq<Option<PeqRoutes>>, m: nat)
    requires |routes| == m + 1
    ensures AllocatorSlots(routes) == AllocatorSlots(routes[..m]) + BeqSlots(routes[m])
  {
  }

  lemma {:induction false} PlaceInConcat<T>(all: seq<T>, a: seq<T>, b: seq<T>, o: nat, n: nat)
    requires all == a + b && |a| == o && n < |b|
    ensures o + n < |all| && all[o + n] == b[n]
  {
  }

  lemma {:induction false} LastRoute(routes: seq<Option<PeqRoutes>>, n: nat)
    requires routes != [] && n < |BeqSlots(routes[|routes| - 1])|
    ensures Offset(routes, |routes| - 1) + n < |AllocatorSlots(routes)|
    ensures AllocatorSlots(routes)[Offset(routes, |routes| - 1) + n] == BeqSlots(routes[|routes| - 1])[n]
  {
    var m := |routes| - 1;
    FrontLength(routes, m);
    LastConcat(routes, m);
    PlaceInConcat(AllocatorSlots(routes), AllocatorSlots(routes[..m]), BeqSlots(routes[m]), Offset(routes, m), n);
  }

  lemma {:induction false} EarlierRoute(routes: seq<Option<PeqRoutes>>, m: nat, q: nat, n: nat)
    requires q < m < |routes| && n < |BeqSlots(routes[q])|
    ensures Offset(routes, q) + n < |AllocatorSlots(routes[..m])|
    ensures AllocatorSlots(routes[..m])[Offset(routes, q) + n] == BeqSlots(routes[q])[n]
    decreases |routes|, 0
  {
    OffsetIsLocal(routes, m, q);
    SlotsFit(routes[..m], q, n);
    SlotOfRoute(routes[..m], q, n);
  }

  lemma {:induction false} ConcatAt<T>(a: seq<T>, b: seq<T>, i: nat)
    requires i < |a + b|
    ensures (a + b)[i] == if i < |a| then a[i] else b[i - |a|]
  {
  }

  lemma {:induction false} OffsetIsLocal(routes: seq<Option<PeqRoutes>>, m: nat, q: nat)
    requires q <= m <= |routes|
    ensures Offset(routes[..m], q) == Offset(routes, q)
  {
    if q > 0 { OffsetIsLocal(routes, m, q - 1); }
  }

  /** A route that takes BEQ. */
  predicate Takes(routes: seq<Option<PeqRoutes>>, q: nat) {
    q < |routes| && routes[q].Some? && routes[q].value.channels != [] && routes[q].value.beqSlots != []
  }

  /** The number of the slot for the k-th index and the j-th group of the q-th route. */
  function SlotNumber(routes: seq<Option<PeqRoutes>>, q: nat, k: nat, j: nat): nat
    requires Takes(routes, q)
  {
    Offset(routes, q) + k * Width(routes[q].value) + j
  }

  lemma {:induction false} SlotAt(routes: seq<Option<PeqRoutes>>, q: nat, k: nat, j: nat)
    requires Takes(routes, q) && k < |routes[q].value.beqSlots| && j < Width(routes[q].value)
    ensures SlotNumber(routes, q, k, j) < |AllocatorSlots(routes)|
    ensures
      var r := routes[q].value;
      AllocatorSlots(routes)[SlotNumber(routes, q, k, j)] ==
          BeqFilterSlot(r.name, r.beqSlots[k], r.channels, GroupAt(r, j))
  {
    var r := routes[q].value;
    RouteSlotAt(r, r.beqSlots, k, j);
    SlotsFit(routes, q, k * Width(r) + j);
    SlotOfRoute(routes, q, k * Width(r) + j);
  }

  // ---- the biquad of a slot, written out ----

  /** The biquad on one channel: a crossover is on the output side and has groups, any other route has none. */
  function BiquadAt(r: PeqRoutes, c: int, k: nat, j: nat): Address
    requires k < |r.beqSlots| && j < Width(r)
  {
    if r.name == "crossover"
    then Address("output", c, if r.groups == [] then None else Some(r.groups[j]), r.beqSlots[k])
    else Address(r.name, c, None, r.beqSlots[k])
  }

  lemma {:induction false} SlotHasBiquad(r: PeqRoutes, c: int, k: nat, j: nat)
    requires c in r.channels && k < |r.beqSlots| && j < Width(r)
    ensures BiquadAt(r, c, k, j) in BeqFilterSlot(r.name, r.beqSlots[k], r.channels, GroupAt(r, j)).Addresses()
  {
  }

  /** Some biquad of a route. */
  predicate IsBiquadOf(r: PeqRoutes, a: Address) {
    && a.channel in r.channels && a.index in r.beqSlots
    && if r.name == "crossover" then
         a.side == "output" && if r.groups == [] then a.group.None? else a.group.Some? && a.group.value in r.groups
       else a.side == r.name && a.group.None?
  }

  ghost predicate InNoRoute(routes: seq<Option<PeqRoutes>>, a: Address) {
    forall q :: 0 <= q < |routes| && routes[q].Some? ==> !IsBiquadOf(routes[q].value, a)
  }

  lemma {:induction false} GroupsHaveBiquads(r: PeqRoutes, indexes: seq<int>, n: nat, a: Address)
    requires n < |RouteSlots(r, indexes)| && a in RouteSlots(r, indexes)[n].Addresses()
    ensures a.index in indexes && IsBiquadOf(r.(beqSlots := indexes), a)
  {
    var front := RouteSlots(r, indexes[..|indexes| - 1]);
    assert indexes == indexes[..|indexes| - 1] + [indexes[|indexes| - 1]];
    if n < |front| { GroupsHaveBiquads(r, indexes[..|indexes| - 1], n, a); }
  }

  lemma {:induction false} SlotsHaveBiquads(routes: seq<Option<PeqRoutes>>, n: nat, a: Address)
    requires n < |AllocatorSlots(routes)| && a in AllocatorSlots(routes)[n].Addresses()
    ensures !InNoRoute(routes, a)
  {
    var m := |routes| - 1;
    var front := AllocatorSlots(routes[..m]);
    if n < |front| {
      SlotsHaveBiquads(routes[..m], n, a);
      var q :| 0 <= q < m && routes[..m][q].Some? && IsBiquadOf(routes[..m][q].value, a);
      assert routes[q] == routes[..m][q];
    } else {
      var r := routes[m].value;
      GroupsHaveBiquads(r, r.beqSlots, n - |front|, a);
      assert r.(beqSlots := r.beqSlots) == r;
    }
  }

  // ---- loads ----

  /** The n-th filter of the entry is live here, with the coefficients it has for this sample rate, or else those
      designed for it; past the last filter the biquad is bypassed. */
  ghost predicate ShowsFilter(p: Preset, a: Address, e: Entry, fs: string, n: nat) {
    if n < |e.filters| then
      && Get(p.bypassed, a) == Some(false)
      && (fs in e.filters[n].biquads ==> Get(p.coeffs, a) == Some(e.filters[n].biquads[fs]))
      && (fs !in e.filters[n].biquads ==> e.filters[n].designed.Some? && Get(p.coeffs, a) == e.filters[n].designed)
    else Get(p.bypassed, a) == Some(true)
  }

  lemma {:induction false} CoefficientsAre(fs: seq<CatalogueFilter>, rate: string, n: nat)
    requires AsBiquads(fs, rate).Ok? && n < |fs|
    ensures rate in fs[n].biquads ==> AsBiquads(fs, rate).value[n] == fs[n].biquads[rate]
    ensures rate !in fs[n].biquads ==> fs[n].designed == Some(AsBiquads(fs, rate).value[n])
  {
    if n < |fs| - 1 { CoefficientsAre(fs[..|fs| - 1], rate, n); }
  }

  /** On a layout with separate slots, the biquads of every route that takes BEQ show the filters in order: by route,
      then by index, then by group, the same on each channel. */
  lemma {:induction false} LoadFillsRoute(
      d: Descriptor, dev: Device, slot: int, e: Entry, q: nat, k: nat, j: nat, c: int)
    requires dev.Valid() && Commands(d, LoadFilter(slot, e)).Ok? && Separate(Slots(d)) && Takes(d.Routes(), q)
    requires
      var r := d.Routes()[q].value;
      k < |r.beqSlots| && j < Width(r) && c in r.channels
    ensures SlotInRange(slot) && |DeviceStep(d, dev, LoadFilter(slot, e)).presets| == PRESETS
    ensures ShowsFilter(DeviceStep(d, dev, LoadFilter(slot, e)).presets[slot - 1],
                        BiquadAt(d.Routes()[q].value, c, k, j), e, d.fs, SlotNumber(d.Routes(), q, k, j))
  {
    LoadsEveryEntryIffSeparate(d);
    LoadIsIsolated(d, dev, slot, e);
    assert LoadHolds(d, dev, slot, e);
    SlotAt(d.Routes(), q, k, j);
    SlotHasBiquad(d.Routes()[q].value, c, k, j);
    var n := SlotNumber(d.Routes(), q, k, j);
    if n < |e.filters| { CoefficientsAre(e.filters, d.fs, n); }
  }

  /** Every biquad of no route keeps its coefficients and its bypass. */
  lemma {:induction false} LoadKeepsOtherBiquads(d: Descriptor, dev: Device, slot: int, e: Entry, a: Address)
    requires dev.Valid() && Commands(d, LoadFilter(slot, e)).Ok? && InNoRoute(d.Routes(), a)
    ensures SlotInRange(slot) && |DeviceStep(d, dev, LoadFilter(slot, e)).presets| == PRESETS
    ensures
      var p, q := dev.presets[slot - 1], DeviceStep(d, dev, LoadFilter(slot, e)).presets[slot - 1];
      Get(q.coeffs, a) == Get(p.coeffs, a) && Get(q.bypassed, a) == Get(p.bypassed, a)
  {
    LoadIsIsolated(d, dev, slot, e);
    NoSlotHas(d, a);
  }

  lemma {:induction false} NoSlotHas(d: Descriptor, a: Address)
    requires InNoRoute(d.Routes(), a)
    ensures forall n :: 0 <= n < |Slots(d)| ==> a !in Slots(d)[n].Addresses()
  {
    forall n | 0 <= n < |Slots(d)|
      ensures a !in Slots(d)[n].Addresses()
    {
      if a in Slots(d)[n].Addresses() { SlotsHaveBiquads(d.Routes(), n, a); }
    }
  }

  // ---- layouts of the shipped shape ----

  /** Inputs without groups take the first filters, one for each index. */
  lemma {:induction false} LoadFillsInputs(d: Descriptor, dev: Device, slot: int, e: Entry, k: nat, c: int)
    requires dev.Valid() && Commands(d, LoadFilter(slot, e)).Ok? && Simple(d)
    requires d.input.Some? && d.input.value.groups == [] && k < |d.input.value.beqSlots| && c in d.input.value.channels
    ensures SlotInRange(slot) && |DeviceStep(d, dev, LoadFilter(slot, e)).presets| == PRESETS
    ensures ShowsFilter(DeviceStep(d, dev, LoadFilter(slot, e)).presets[slot - 1],
                        Address("input", c, None, d.input.value.beqSlots[k]), e, d.fs, k)
  {
    SimpleLayoutsAreSeparate(d);
    assert d.Routes()[0] == d.input && "input"[0] != "crossover"[0];
    LoadFillsRoute(d, dev, slot, e, 0, k, 0, c);
  }

  lemma {:induction false} OutputsComeThird(d: Descriptor)
    ensures |d.Routes()| >= 3 && d.Routes()[2] == d.output
    ensures Offset(d.Routes(), 2) == SlotCount(d.input) + SlotCount(d.crossover)
  {
    assert d.Routes()[0] == d.input && d.Routes()[1] == d.crossover;
    assert Offset(d.Routes(), 1) == SlotCount(d.input);
  }

  lemma {:induction false} OutputSlots(d: Descriptor, k: nat, c: int)
    requires Simple(d) && d.output.Some? && d.output.value.groups == [] && k < |d.output.value.beqSlots|
    requires c in d.output.value.channels
    ensures Takes(d.Routes(), 2) && d.Routes()[2] == d.output
    ensures SlotNumber(d.Routes(), 2, k, 0) == SlotCount(d.input) + SlotCount(d.crossover) + k
    ensures BiquadAt(d.output.value, c, k, 0) == Address("output", c, None, d.output.value.beqSlots[k])
  {
    assert "output"[0] != "crossover"[0];
    OutputsComeThird(d);
  }

  /** Outputs take those that follow the inputs' and the crossovers'. */
  lemma {:induction false} LoadFillsOutputs(d: Descriptor, dev: Device, slot: int, e: Entry, k: nat, c: int)
    requires dev.Valid() && Commands(d, LoadFilter(slot, e)).Ok? && Simple(d)
    requires d.output.Some? && d.output.value.groups == [] && k < |d.output.value.beqSlots|
        && c in d.output.value.channels
    ensures SlotInRange(slot) && |DeviceStep(d, dev, LoadFilter(slot, e)).presets| == PRESETS
    ensures ShowsFilter(DeviceStep(d, dev, LoadFilter(slot, e)).presets[slot - 1],
                        Address("output", c, None, d.output.value.beqSlots[k]), e, d.fs,
                        SlotCount(d.input) + SlotCount(d.crossover) + k)
  {
    SimpleLayoutsAreSeparate(d);
    OutputSlots(d, k, c);
    LoadFillsRoute(d, dev, slot, e, 2, k, 0, c);
  }

  /** Crossovers take those that follow the inputs', one for each index and group. */
  lemma {:induction false} LoadFillsCrossovers(d: Descriptor, dev: Device, slot: int, e: Entry, k: nat, j: nat, c: int)
    requires dev.Valid() && Commands(d, LoadFilter(slot, e)).Ok? && Simple(d)
    requires d.crossover.Some? && c in d.crossover.value.channels
    requires k < |d.crossover.value.beqSlots| && j < |d.crossover.value.groups|
    ensures SlotInRange(slot) && |DeviceStep(d, dev, LoadFilter(slot, e)).presets| == PRESETS
    ensures
      var r := d.crossover.value;
      ShowsFilter(DeviceStep(d, dev, LoadFilter(slot, e)).presets[slot - 1],
                  Address("output", c, Some(r.groups[j]), r.beqSlots[k]), e, d.fs,
                  SlotCount(d.input) + k * |r.groups| + j)
  {
    SimpleLayoutsAreSeparate(d);
    assert d.Routes()[0] == d.input && d.Routes()[1] == d.crossover;
    assert Offset(d.Routes(), 1) == SlotCount(d.input);
    LoadFillsRoute(d, dev, slot, e, 1, k, j, c);
  }

  // ---- clears ----

  /** A clear bypasses every biquad of every route that takes BEQ, and keeps its coefficients. */
  lemma {:induction false} ClearBypassesRoutes(d: Descriptor, dev: Device, slot: int, q: nat, a: Address)
    requires dev.Valid() && SlotInRange(slot)
    requires q < |d.Routes()| && d.Routes()[q].Some? && IsBiquadOf(d.Routes()[q].value, a)
    ensures |DeviceStep(d, dev, ClearFilter(slot)).presets| == PRESETS
    ensures
      var after := DeviceStep(d, dev, ClearFilter(slot)).presets[slot - 1];
      Get(after.coeffs, a) == Get(dev.presets[slot - 1].coeffs, a) && Get(after.bypassed, a) == Some(true)
  {
    ClearIsIsolated(d, dev, slot);
    RouteHasSlot(d.Routes(), q, a);
    SilentInCleared(dev.presets[slot - 1], DeviceStep(d, dev, ClearFilter(slot)).presets[slot - 1], Slots(d), a);
  }

  lemma {:induction false} SilentInCleared(p: Preset, q: Preset, slots: seq<BeqFilterSlot>, a: Address)
    requires Cleared(p, q, slots) && exists n :: 0 <= n < |slots| && a in slots[n].Addresses()
    ensures Get(q.coeffs, a) == Get(p.coeffs, a) && Get(q.bypassed, a) == Some(true)
  {
  }

  /** It leaves every other biquad as it was. */
  lemma {:induction false} ClearKeepsOtherBiquads(d: Descriptor, dev: Device, slot: int, a: Address)
    requires dev.Valid() && SlotInRange(slot) && InNoRoute(d.Routes(), a)
    ensures |DeviceStep(d, dev, ClearFilter(slot)).presets| == PRESETS
    ensures
      var p, after := dev.presets[slot - 1], DeviceStep(d, dev, ClearFilter(slot)).presets[slot - 1];
      Get(after.coeffs, a) == Get(p.coeffs, a) && Get(after.bypassed, a) == Get(p.bypassed, a)
  {
    ClearIsIsolated(d, dev, slot);
    NoSlotHas(d, a);
  }

  lemma {:induction false} RouteHasSlot(routes: seq<Option<PeqRoutes>>, q: nat, a: Address)
    requires q < |routes| && routes[q].Some? && IsBiquadOf(routes[q].value, a)
    ensures exists n :: 0 <= n < |AllocatorSlots(routes)| && a in AllocatorSlots(routes)[n].Addresses()
  {
    var r := routes[q].value;
    var k :| 0 <= k < |r.beqSlots| && r.beqSlots[k] == a.index;
    var j := 0;
    if r.name == "crossover" && r.groups != [] { j :| 0 <= j < |r.groups| && Some(r.groups[j]) == a.group; }
    SlotAt(routes, q, k, j);
    SlotHasBiquad(r, a.channel, k, j);
  }

  /** The inputs that take BEQ end at 0 dB and open; all other levels are kept. */
  lemma {:induction false} ClearResetsInputs(d: Descriptor, dev: Device, slot: int, side: string, c: int)
    requires dev.Valid() && SlotInRange(slot) && Simple(d)
    ensures |DeviceStep(d, dev, ClearFilter(slot)).presets| == PRESETS
    ensures
      var p, q, ch := dev.presets[slot - 1], DeviceStep(d, dev, ClearFilter(slot)).presets[slot - 1],
          ChannelId(side, c);
      if side == "input" && d.input.Some? && d.input.value.beqSlots != [] && c in d.input.value.channels then
        Get(q.gains, ch) == Some(0.0) && Get(q.mutes, ch) == Some(false)
      else Get(q.gains, ch) == Get(p.gains, ch) && Get(q.mutes, ch) == Get(p.mutes, ch)
  {
    ClearIsIsolated(d, dev, slot);
    assert LevelCleared(dev.presets[slot - 1], DeviceStep(d, dev, ClearFilter(slot)).presets[slot - 1], Slots(d),
                        ChannelId(side, c));
    InputsTakeIff(d, c);
  }

  lemma {:induction false} InputsTakeIff(d: Descriptor, c: int)
    requires Simple(d)
    ensures TakesBeqInput(Slots(d), c) <==> d.input.Some? && d.input.value.beqSlots != [] && c in d.input.value.channels
  {
    if d.input.Some? && d.input.value.beqSlots != [] && c in d.input.value.channels {
      assert d.Routes()[0] == d.input;
      SlotAt(d.Routes(), 0, 0, 0);
    }
    if TakesBeqInput(Slots(d), c) {
      var n :| 0 <= n < |Slots(d)| && Slots(d)[n].name == INPUT_NAME && c in Slots(d)[n].channels;
      var a := AddressOf(INPUT_NAME, c, Slots(d)[n].group, Slots(d)[n].idx);
      assert a in Slots(d)[n].Addresses();
      SlotsHaveBiquads(d.Routes(), n, a);
      var q :| 0 <= q < |d.Routes()| && d.Routes()[q].Some? && IsBiquadOf(d.Routes()[q].value, a);
      assert a.side == "input" && "input"[0] != "output"[0] && "input"[0] != "crossover"[0];
      OnlyInputHasInputs(d, q, a);
    }
  }

  lemma {:induction false} OnlyInputHasInputs(d: Descriptor, q: nat, a: Address)
    requires Simple(d) && q < |d.Routes()| && d.Routes()[q].Some? && IsBiquadOf(d.Routes()[q].value, a)
    requires a.side == "input"
    ensures q == 0 && d.Routes()[0] == d.input
  {
    assert "input"[0] != "output"[0] && "input"[0] != "crossover"[0];
  }

  // ---- biquads ----

  /** Biquads loaded into channels, which are counted from 1, reach the peq places of these channels from 0 on: each
      entry that is not empty with its coefficients and its bypass; with overwrite, every place up to the tenth that
      has none is bypassed. Every other biquad is kept. */
  lemma {:induction false} BiquadsReachChannels(
      d: Descriptor, dev: Device, slot: int, overwrite: bool, inputs: seq<int>, outputs: seq<int>, bqs: seq<Option<Bq>>,
      a: Address)
    requires dev.Valid() && SlotInRange(slot)
    ensures
      var after := DeviceStep(d, dev, LoadBiquads(slot, overwrite, inputs, outputs, bqs));
      && |after.presets| == PRESETS
      && var p, q := dev.presets[slot - 1], after.presets[slot - 1];
         var chosen := a.group.None? && a.channel + 1 in
                       (if a.side == "input" then inputs else if a.side == "output" then outputs else []);
         if chosen && 0 <= a.index < |bqs| && bqs[a.index].Some? then
           Get(q.coeffs, a) == Some(bqs[a.index].value.coeffs) && Get(q.bypassed, a) == Some(bqs[a.index].value.bypass)
         else
           && Get(q.coeffs, a) == Get(p.coeffs, a)
           && Get(q.bypassed, a) ==
              if chosen && overwrite && (0 <= a.index < 10 || 0 <= a.index < |bqs|) then Some(true)
                  else Get(p.bypassed, a)
  {
    BiquadsAreIsolated(d, dev, slot, overwrite, inputs, outputs, bqs);
    BiquadsReachPreset(dev.presets[slot - 1], overwrite, inputs, outputs, bqs);
    IdsAre("input", inputs, ChannelId(a.side, a.channel));
    IdsAre("output", outputs, ChannelId(a.side, a.channel));
  }

  lemma {:induction false} IdsAre(side: string, channels: seq<int>, id: ChannelId)
    ensures id in Ids(side, channels) <==> id.side == side && id.channel + 1 in channels
  {
    if id.side == side && id.channel + 1 in channels { assert id == ChannelId(side, id.channel + 1 - 1); }
  }

  // ---- levels ----

  /** A gain within the limits of its section is sent, rounded to two decimals, to the input of the slot's preset or to
      both of the first two, or to the master section, and moves nothing else; one outside is refused. */
  lemma {:induction false} GainReachesChannel(d: Descriptor, dev: Device, slot: int, channel: int, gain: real)
    requires dev.Valid() && SlotInRange(slot) && channel >= 1
    ensures Commands(d, SetGain(Some(slot), Some(channel), gain)).Ok? <==> -72.0 <= gain <= 12.0
    ensures -72.0 <= gain <= 12.0 ==>
      DeviceStep(d, dev, SetGain(Some(slot), Some(channel), gain)) ==
      var p := dev.presets[slot - 1];
      dev.(active := slot - 1,
           presets :=
               dev.presets[slot - 1 := p.(gains := p.gains[ChannelId("input", channel - 1) := TwoDecimals(gain)])])
  {
    if -72.0 <= gain <= 12.0 {
      var op := SetGain(Some(slot), Some(channel), gain);
      var c := Gain(ChannelId("input", channel - 1), TwoDecimals(gain));
      assert Commands(d, op) == Ok([c]);
      OneCommand(Switched(dev, Some(slot)), c);
    }
  }

  lemma {:induction false} MuteReachesChannel(d: Descriptor, dev: Device, slot: int, channel: int, on: bool)
    requires dev.Valid() && SlotInRange(slot) && channel >= 1
    ensures Commands(d, SetMute(Some(slot), Some(channel), on)).Ok?
    ensures
      DeviceStep(d, dev, SetMute(Some(slot), Some(channel), on)) ==
      var p := dev.presets[slot - 1];
      dev.(active := slot - 1,
           presets := dev.presets[slot - 1 := p.(mutes := p.mutes[ChannelId("input", channel - 1) := on])])
  {
    OneCommand(Switched(dev, Some(slot)), Mute(ChannelId("input", channel - 1), on));
  }

  lemma {:induction false} OneCommand(dev: Device, c: Command)
    ensures ExecAll(dev, [c]) == Exec(dev, c)
  {
    assert [c][1..] == [];
  }

  /** A gain for all of a slot's channels goes to the first two inputs. */
  lemma {:induction false} GainReachesFirstTwo(d: Descriptor, dev: Device, slot: int, gain: real)
    requires dev.Valid() && SlotInRange(slot) && -72.0 <= gain <= 12.0
    ensures Commands(d, SetGain(Some(slot), None, gain)).Ok?
    ensures
      DeviceStep(d, dev, SetGain(Some(slot), None, gain)) ==
      var p, db := dev.presets[slot - 1], TwoDecimals(gain);
      dev.(active := slot - 1,
           presets := dev.presets[slot - 1 :=
             p.(gains := p.gains[ChannelId("input", 0) := db][ChannelId("input", 1) := db])])
  {
    var db := TwoDecimals(gain);
    var one, two := Gain(ChannelId("input", 0), db), Gain(ChannelId("input", 1), db);
    assert Commands(d, SetGain(Some(slot), None, gain)) == Ok([one, two]);
    assert [one, two][1..] == [two];
    OneCommand(Exec(Switched(dev, Some(slot)), one), two);
  }

  /** So does a mute. */
  lemma {:induction false} MuteReachesFirstTwo(d: Descriptor, dev: Device, slot: int, on: bool)
    requires dev.Valid() && SlotInRange(slot)
    ensures
      DeviceStep(d, dev, SetMute(Some(slot), None, on)) ==
      var p := dev.presets[slot - 1];
      dev.(active := slot - 1,
           presets := dev.presets[slot - 1 :=
             p.(mutes := p.mutes[ChannelId("input", 0) := on][ChannelId("input", 1) := on])])
  {
    var one, two := Mute(ChannelId("input", 0), on), Mute(ChannelId("input", 1), on);
    assert Commands(d, SetMute(Some(slot), None, on)) == Ok([one, two]);
    assert [one, two][1..] == [two];
    OneCommand(Exec(Switched(dev, Some(slot)), one), two);
  }

  /** The master section takes gains from -127 to 0 and any mute, in whatever preset the device is. */
  lemma {:induction false} MasterIsSet(d: Descriptor, dev: Device, gain: real, on: bool)
    ensures Commands(d, SetGain(None, None, gain)).Ok? <==> -127.0 <= gain <= 0.0
    ensures -127.0 <= gain <= 0.0 ==>
      DeviceStep(d, dev, SetGain(None, None, gain)) == dev.(volume := TwoDecimals(gain))
    ensures Commands(d, SetMute(None, None, on)).Ok? && DeviceStep(d, dev, SetMute(None, None, on)) == dev.(mute := on)
  {
    OneCommand(dev, MasterGain(TwoDecimals(gain)));
    OneCommand(dev, MasterMute(on));
  }

  // ---- what is refused ----

  /** Five coefficients, those given for the sample rate if there are any. */
  predicate Loadable(f: CatalogueFilter, fs: string) {
    if fs in f.biquads then |f.biquads[fs]| == 5 else f.designed.Some? && |f.designed.value| == 5
  }

  lemma {:induction false} AllLoadable(fs: seq<CatalogueFilter>, rate: string)
    ensures AsBiquads(fs, rate).Ok? <==> forall i :: 0 <= i < |fs| ==> Loadable(fs[i], rate)
  {
    if fs != [] {
      var n := |fs| - 1;
      AllLoadable(fs[..n], rate);
      assert fs == fs[..n] + [fs[n]];
    }
  }

  lemma {:induction false} FiltIff(d: Descriptor, e: Entry)
    ensures Filt(Some(e), d).Ok? <==>
            && |e.filters| <= Offset(d.Routes(), |d.Routes()|)
            && forall i :: 0 <= i < |e.filters| ==> Loadable(e.filters[i], d.fs)
  {
    AllLoadable(e.filters, d.fs);
    RoutesLength(d.Routes());
  }

  /** An operation is sent exactly if its slot is one of the four, its gain within the limits of its section, and its
      entry has no more filters than the routes have slots, each with five coefficients; a gain is sent to any slot. */
  lemma {:induction false} SentIff(d: Descriptor, op: Op)
    ensures Commands(d, op).Ok? <==>
            match op
            case SetGain(t, _, gain) => if t.None? then -127.0 <= gain <= 0.0 else -72.0 <= gain <= 12.0
            case SetMute(t, _, _) => t.Some? ==> 1 <= t.value <= 4
            case LoadFilter(s, e) =>
              && 1 <= s <= 4 && |e.filters| <= Offset(d.Routes(), |d.Routes()|)
              && forall i :: 0 <= i < |e.filters| ==> Loadable(e.filters[i], d.fs)
            case Activate(s) => 1 <= s <= 4
            case ClearFilter(s) => 1 <= s <= 4
            case LoadBiquads(s, _, _, _, _) => 1 <= s <= 4
  {
    if op.LoadFilter? { FiltIff(d, op.entry); }
  }
}
