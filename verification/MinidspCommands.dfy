/** The slot allocator and the compiler from a catalogue entry to minidsp commands. */
module MinidspCommands {
  import opened Common
  import opened MinidspDevice

  datatype PeqRoutes = PeqRoutes(name: string, biquads: nat, channels: seq<int>, beqSlots: seq<int>, groups: seq<int>) {
    predicate TakesBeq() { channels != [] && beqSlots != [] }
  }

  datatype Descriptor = Descriptor(fs: string, input: Option<PeqRoutes>, crossover: Option<PeqRoutes>,
                                   output: Option<PeqRoutes>, extra: seq<Option<PeqRoutes>>) {
    function Routes(): seq<Option<PeqRoutes>> { [input, crossover, output] + extra }

    /** How many input channels the record keeps a gain and a mute for. */
    function Inputs(): nat { if input.Some? then |input.value.channels| else 0 }
  }

  datatype BeqFilterSlot = BeqFilterSlot(name: string, idx: int, channels: seq<int>, group: Option<int>) {
    /** The biquads this slot stands for, one per channel. */
    function Addresses(): set<Address> { set c | c in channels :: AddressOf(name, c, group, idx) }
  }

  /** A crossover biquad is printed on the output side; its group is printed only there. */
  function AddressOf(name: string, channel: int, group: Option<int>, index: int): Address {
    if name == CROSSOVER_NAME then Address(OUTPUT_NAME, channel, group, index) else Address(name, channel, None, index)
  }

  function RouteSlots(r: PeqRoutes, beqSlots: seq<int>): seq<BeqFilterSlot> {
    if beqSlots == [] then []
    else RouteSlots(r, beqSlots[..|beqSlots| - 1]) + IndexSlots(r, beqSlots[|beqSlots| - 1], r.groups)
  }

  /** The slots of one biquad index: one per group, or a single one when the route has no groups. */
  function IndexSlots(r: PeqRoutes, idx: int, groups: seq<int>): seq<BeqFilterSlot> {
    if r.groups == [] then [BeqFilterSlot(r.name, idx, r.channels, None)] else GroupSlots(r, idx, groups)
  }

  function GroupSlots(r: PeqRoutes, idx: int, groups: seq<int>): seq<BeqFilterSlot> {
    seq(|groups|, i requires 0 <= i < |groups| => BeqFilterSlot(r.name, idx, r.channels, Some(groups[i])))
  }

  function BeqSlots(r: Option<PeqRoutes>): seq<BeqFilterSlot> {
    if r.Some? && r.value.TakesBeq() then RouteSlots(r.value, r.value.beqSlots) else []
  }

  function AllocatorSlots(routes: seq<Option<PeqRoutes>>): seq<BeqFilterSlot> {
    if routes == [] then [] else AllocatorSlots(routes[..|routes| - 1]) + BeqSlots(routes[|routes| - 1])
  }

  class BeqFilterAllocator {
    var slots: seq<BeqFilterSlot>

    constructor (routes: seq<Option<PeqRoutes>>)
      ensures slots == AllocatorSlots(routes)
    {
      slots := [];
      new;
      for i := 0 to |routes|
        invariant slots == AllocatorSlots(routes[..i])
      {
        assert routes[..i + 1][..i] == routes[..i];
        if routes[i].Some? && routes[i].value.TakesBeq() {
          AddRoute(routes[i].value);
        }
      }
      assert routes[..|routes|] == routes;
    }

    method AddRoute(r: PeqRoutes)
      modifies this
      ensures slots == old(slots) + RouteSlots(r, r.beqSlots)
    {
      for i := 0 to |r.beqSlots|
        invariant slots == old(slots) + RouteSlots(r, r.beqSlots[..i])
      {
        assert r.beqSlots[..i + 1][..i] == r.beqSlots[..i];
        AddIndex(r, r.beqSlots[i]);
      }
      assert r.beqSlots[..|r.beqSlots|] == r.beqSlots;
    }

    method AddIndex(r: PeqRoutes, idx: int)
      modifies this
      ensures slots == old(slots) + IndexSlots(r, idx, r.groups)
    {
      if r.groups == [] {
        slots := slots + [BeqFilterSlot(r.name, idx, r.channels, None)];
        return;
      }
      for i := 0 to |r.groups|
        invariant slots == old(slots) + GroupSlots(r, idx, r.groups[..i])
      {
        slots := slots + [BeqFilterSlot(r.name, idx, r.channels, Some(r.groups[i]))];
      }
      assert r.groups[..|r.groups|] == r.groups;
    }

    method Pop() returns (s: Option<BeqFilterSlot>)
      modifies this
      ensures s == if old(slots) == [] then None else Some(old(slots)[0])
      ensures slots == if old(slots) == [] then [] else old(slots)[1..]
    {
      if slots == [] { return None; }
      s, slots := Some(slots[0]), slots[1..];
    }
  }

  // ---- the compiler ----

  /** A catalogue filter: coefficients by sample rate, and those its type, frequency, gain and q design, if the type is
      known. */
  datatype CatalogueFilter = CatalogueFilter(biquads: map<string, Coeffs>, designed: Option<Coeffs>)

  datatype Entry = Entry(title: string, author: string, filters: seq<CatalogueFilter>)

  datatype CompileError = UnknownFilterType | InvalidCoeffCount | NoSlotsRemaining

  function AsBiquad(f: CatalogueFilter, fs: string): Result<Coeffs, CompileError> {
    if fs !in f.biquads && f.designed.None? then Err(UnknownFilterType) else
    var c := if fs in f.biquads then f.biquads[fs] else f.designed.value;
    if |c| == 5 then Ok(c) else Err(InvalidCoeffCount)
  }

  function AsBiquads(fs: seq<CatalogueFilter>, rate: string): (r: Result<seq<Coeffs>, CompileError>)
    ensures r.Ok? ==> |r.value| == |fs|
  {
    if fs == [] then Ok([]) else
    match AsBiquads(fs[..|fs| - 1], rate)
    case Err(e) => Err(e)
    case Ok(front) =>
      match AsBiquad(fs[|fs| - 1], rate)
      case Err(e) => Err(e)
      case Ok(c) => Ok(front + [c])
  }

  function Filters(entry: Option<Entry>): seq<CatalogueFilter> { if entry.Some? then entry.value.filters else [] }

  /** Set-and-enable commands for one slot, over the first n of its channels. */
  function Push(s: BeqFilterSlot, coeffs: Coeffs, n: nat): seq<Command>
    requires n <= |s.channels|
  {
    if n == 0 then [] else
    var a := AddressOf(s.name, s.channels[n - 1], s.group, s.idx);
    Push(s, coeffs, n - 1) + [SetBiquad(a, coeffs), Bypass(a, false)]
  }

  function Silence(s: BeqFilterSlot, n: nat): seq<Command>
    requires n <= |s.channels|
  {
    if n == 0 then []
    else Silence(s, n - 1) + [Bypass(AddressOf(s.name, s.channels[n - 1], s.group, s.idx), true)]
  }

  /** The order of the commands: filter k onto slot k, then a bypass for each slot left over. */
  function Compiled(filters: seq<Coeffs>, slots: seq<BeqFilterSlot>): seq<Command>
    decreases slots
  {
    if slots == [] then []
    else if filters == [] then Silence(slots[0], |slots[0].channels|) + Compiled([], slots[1..])
    else Push(slots[0], filters[0], |slots[0].channels|) + Compiled(filters[1..], slots[1..])
  }

  function Filt(entry: Option<Entry>, d: Descriptor): Result<seq<Command>, CompileError> {
    match AsBiquads(Filters(entry), d.fs)
    case Err(e) => Err(e)
    case Ok(filters) =>
      var slots := AllocatorSlots(d.Routes());
      if |filters| <= |slots| then Ok(Compiled(filters, slots)) else Err(NoSlotsRemaining)
  }

  lemma {:induction false} FirstErrorWins(fs: seq<CatalogueFilter>, i: nat, rate: string)
    requires i <= |fs| && AsBiquads(fs[..i], rate).Err?
    ensures AsBiquads(fs, rate) == AsBiquads(fs[..i], rate)
    decreases |fs|
  {
    if i == |fs| {
      assert fs[..i] == fs;
    } else {
      var front := fs[..|fs| - 1];
      assert front[..i] == fs[..i];
      FirstErrorWins(front, i, rate);
    }
  }

  method DesignAll(fs: seq<CatalogueFilter>, rate: string) returns (r: Result<seq<Coeffs>, CompileError>)
    ensures r == AsBiquads(fs, rate)
  {
    var filters: seq<Coeffs> := [];
    for i := 0 to |fs|
      invariant AsBiquads(fs[..i], rate) == Ok(filters)
    {
      assert fs[..i + 1][..i] == fs[..i];
      match AsBiquad(fs[i], rate)
      case Err(e) =>
        FirstErrorWins(fs, i + 1, rate);
        return Err(e);
      case Ok(c) => filters := filters + [c];
    }
    assert fs[..|fs|] == fs;
    return Ok(filters);
  }

  method PushSlot(cmds: seq<Command>, s: BeqFilterSlot, coeffs: Coeffs) returns (r: seq<Command>)
    ensures r == cmds + Push(s, coeffs, |s.channels|)
  {
    r := cmds;
    for i := 0 to |s.channels|
      invariant r == cmds + Push(s, coeffs, i)
    {
      var a := AddressOf(s.name, s.channels[i], s.group, s.idx);
      r := r + [SetBiquad(a, coeffs), Bypass(a, false)];
    }
  }

  method SilenceSlot(cmds: seq<Command>, s: BeqFilterSlot) returns (r: seq<Command>)
    ensures r == cmds + Silence(s, |s.channels|)
  {
    r := cmds;
    for i := 0 to |s.channels|
      invariant r == cmds + Silence(s, i)
    {
      r := r + [Bypass(AddressOf(s.name, s.channels[i], s.group, s.idx), true)];
    }
  }

  method GenerateFilt(entry: Option<Entry>, d: Descriptor) returns (r: Result<seq<Command>, CompileError>)
    ensures r == Filt(entry, d)
  {
    var designed := DesignAll(Filters(entry), d.fs);
    if designed.Err? { return Err(designed.error); }
    var beqSlots := new BeqFilterAllocator(d.Routes());
    ghost var all := beqSlots.slots;
    var loaded := LoadAll(beqSlots, designed.value);
    if loaded.Err? { return Err(loaded.error); }
    var cmds := SilenceRest(beqSlots, loaded.value);
    return Ok(cmds);
  }

  /** The filters, each onto the next slot popped. */
  method LoadAll(beqSlots: BeqFilterAllocator, filters: seq<Coeffs>) returns (r: Result<seq<Command>, CompileError>)
    modifies beqSlots
    ensures r.Ok? <==> |filters| <= |old(beqSlots.slots)|
    ensures r.Err? ==> r.error == NoSlotsRemaining
    ensures r.Ok? ==> beqSlots.slots == old(beqSlots.slots)[|filters|..]
    ensures r.Ok? ==> r.value + Compiled([], beqSlots.slots) == Compiled(filters, old(beqSlots.slots))
  {
    var cmds: seq<Command> := [];
    ghost var all := beqSlots.slots;
    var idx := 0;
    while idx < |filters|
      invariant idx <= |filters| && idx <= |all|
      invariant beqSlots.slots == all[idx..]
      invariant cmds + Compiled(filters[idx..], beqSlots.slots) == Compiled(filters, all)
    {
      ghost var todo, rest, before := filters[idx..], beqSlots.slots, cmds;
      var slot := beqSlots.Pop();
      if slot.None? { return Err(NoSlotsRemaining); }
      cmds := PushSlot(cmds, slot.value, filters[idx]);
      Regroup(before, Push(rest[0], todo[0], |rest[0].channels|), Compiled(todo[1..], rest[1..]));
      assert todo[1..] == filters[idx + 1..] && rest[1..] == all[idx + 1..];
      idx := idx + 1;
    }
    assert filters[idx..] == [];
    return Ok(cmds);
  }

  /** A bypass for every slot still to pop. */
  method SilenceRest(beqSlots: BeqFilterAllocator, cmds: seq<Command>) returns (r: seq<Command>)
    modifies beqSlots
    ensures r == cmds + Compiled([], old(beqSlots.slots))
  {
    r := cmds;
    ghost var rest := beqSlots.slots;
    var s := beqSlots.Pop();
    while s.Some?
      invariant s == if rest == [] then None else Some(rest[0])
      invariant beqSlots.slots == if rest == [] then [] else rest[1..]
      invariant r + Compiled([], rest) == cmds + Compiled([], old(beqSlots.slots))
      decreases |rest|
    {
      Regroup(r, Silence(s.value, |s.value.channels|), Compiled([], rest[1..]));
      r := SilenceSlot(r, s.value);
      rest := rest[1..];
      s := beqSlots.Pop();
    }
  }

  // ---- what the commands mean ----

  function Loaded(p: Preset, s: BeqFilterSlot, coeffs: Coeffs): Preset {
    p.(coeffs := Mark(p.coeffs, s.Addresses(), coeffs), bypassed := Mark(p.bypassed, s.Addresses(), false))
  }

  function Silenced(p: Preset, s: BeqFilterSlot): Preset {
    p.(bypassed := Mark(p.bypassed, s.Addresses(), true))
  }

  /** A slot cut down to its first n channels. */
  function Narrow(s: BeqFilterSlot, n: nat): BeqFilterSlot
    requires n <= |s.channels|
  {
    s.(channels := s.channels[..n])
  }

  lemma {:induction false} PushLoads(p: Preset, s: BeqFilterSlot, coeffs: Coeffs, n: nat)
    requires n <= |s.channels|
    ensures WriteAll(p, Push(s, coeffs, n)) == Loaded(p, Narrow(s, n), coeffs)
  {
    var keys := Narrow(s, n).Addresses();
    if n == 0 {
      MarkNothing(p.coeffs, coeffs);
      MarkNothing(p.bypassed, false);
      assert keys == {};
    } else {
      PushLoads(p, s, coeffs, n - 1);
      NarrowAddresses(s, n);
      var a := AddressOf(s.name, s.channels[n - 1], s.group, s.idx);
      var fewer := Narrow(s, n - 1).Addresses();
      WriteAllAppend(p, Push(s, coeffs, n - 1), [SetBiquad(a, coeffs), Bypass(a, false)]);
      WriteTwo(Loaded(p, Narrow(s, n - 1), coeffs), SetBiquad(a, coeffs), Bypass(a, false));
      MarkOneMore(p.coeffs, fewer, a, coeffs);
      MarkOneMore(p.bypassed, fewer, a, false);
    }
  }

  lemma {:induction false} WriteTwo(p: Preset, c1: Command, c2: Command)
    ensures WriteAll(p, [c1]) == Write(p, c1)
    ensures WriteAll(p, [c1, c2]) == Write(Write(p, c1), c2)
  {
    assert [c1, c2][1..] == [c2];
    assert WriteAll(Write(p, c1), [c2]) == Write(Write(p, c1), c2);
  }

  lemma {:induction false} NarrowAddresses(s: BeqFilterSlot, n: nat)
    requires 0 < n <= |s.channels|
    ensures Narrow(s, n).Addresses() == Narrow(s, n - 1).Addresses()
        + {AddressOf(s.name, s.channels[n - 1], s.group, s.idx)}
  {
    assert s.channels[..n] == s.channels[..n - 1] + [s.channels[n - 1]];
  }

  lemma {:induction false} SilenceSilences(p: Preset, s: BeqFilterSlot, n: nat)
    requires n <= |s.channels|
    ensures WriteAll(p, Silence(s, n)) == Silenced(p, Narrow(s, n))
  {
    var keys := Narrow(s, n).Addresses();
    if n == 0 {
      MarkNothing(p.bypassed, true);
      assert keys == {};
    } else {
      SilenceSilences(p, s, n - 1);
      NarrowAddresses(s, n);
      var a := AddressOf(s.name, s.channels[n - 1], s.group, s.idx);
      WriteAllAppend(p, Silence(s, n - 1), [Bypass(a, true)]);
      WriteTwo(Silenced(p, Narrow(s, n - 1)), Bypass(a, true), Bypass(a, true));
      MarkOneMore(p.bypassed, Narrow(s, n - 1).Addresses(), a, true);
    }
  }

  lemma {:induction false} CompiledWritesBiquads(filters: seq<Coeffs>, slots: seq<BeqFilterSlot>)
    ensures forall i :: 0 <= i < |Compiled(filters, slots)| ==> Compiled(filters, slots)[i].WritesBiquad()
    decreases slots
  {
    if slots != [] {
      var n := |slots[0].channels|;
      if filters == [] {
        OnlyBiquadWrites(slots[0], [], n);
        CompiledWritesBiquads([], slots[1..]);
      } else {
        OnlyBiquadWrites(slots[0], filters[0], n);
        CompiledWritesBiquads(filters[1..], slots[1..]);
      }
    }
  }

  lemma {:induction false} OnlyBiquadWrites(s: BeqFilterSlot, coeffs: Coeffs, n: nat)
    requires n <= |s.channels|
    ensures forall i :: 0 <= i < |Push(s, coeffs, n)| ==> Push(s, coeffs, n)[i].WritesBiquad()
    ensures forall i :: 0 <= i < |Silence(s, n)| ==> Silence(s, n)[i].WritesBiquad()
  {
    if n > 0 { OnlyBiquadWrites(s, coeffs, n - 1); }
  }

  // ---- which slot owns a biquad ----

  /** The last slot that lists a biquad: the one whose command the device sees last. */
  function Owner(slots: seq<BeqFilterSlot>, a: Address): Option<nat>
    decreases slots
  {
    if slots == [] then None else
    match Owner(slots[1..], a)
    case Some(k) => Some(k + 1)
    case None => if a in slots[0].Addresses() then Some(0) else None
  }

  lemma {:induction false} OwnerIsLast(slots: seq<BeqFilterSlot>, a: Address)
    ensures var r := Owner(slots, a);
            && (r.Some? ==> r.value < |slots| && a in slots[r.value].Addresses())
            && (forall k :: 0 <= k < |slots| && a in slots[k].Addresses() ==> r.Some? && k <= r.value)
    decreases slots
  {
    if slots != [] {
      OwnerIsLast(slots[1..], a);
      forall k | 0 < k < |slots| && a in slots[k].Addresses()
        ensures Owner(slots, a).Some? && k <= Owner(slots, a).value
      {
        assert slots[1..][k - 1] == slots[k];
      }
    }
  }

  /** The slots taken in order: one load or one bypass each. */
  function Settled(p: Preset, filters: seq<Coeffs>, slots: seq<BeqFilterSlot>): Preset
    decreases slots
  {
    if slots == [] then p
    else if filters == [] then Settled(Silenced(p, slots[0]), [], slots[1..])
    else Settled(Loaded(p, slots[0], filters[0]), filters[1..], slots[1..])
  }

  lemma {:induction false} CompiledSettles(p: Preset, filters: seq<Coeffs>, slots: seq<BeqFilterSlot>)
    ensures WriteAll(p, Compiled(filters, slots)) == Settled(p, filters, slots)
    decreases slots
  {
    if slots != [] {
      var s := slots[0];
      assert Narrow(s, |s.channels|) == s;
      if filters == [] {
        SilenceSilences(p, s, |s.channels|);
        WriteAllAppend(p, Silence(s, |s.channels|), Compiled([], slots[1..]));
        CompiledSettles(Silenced(p, s), [], slots[1..]);
      } else {
        PushLoads(p, s, filters[0], |s.channels|);
        WriteAllAppend(p, Push(s, filters[0], |s.channels|), Compiled(filters[1..], slots[1..]));
        CompiledSettles(Loaded(p, s, filters[0]), filters[1..], slots[1..]);
      }
    }
  }

  /** The state of one biquad after a load, told by its last owners alone. */
  ghost predicate Decided(p: Preset, q: Preset, filters: seq<Coeffs>, slots: seq<BeqFilterSlot>, a: Address)
    requires |filters| <= |slots|
  {
    var o, f := Owner(slots, a), Owner(slots[..|filters|], a);
    && (o.Some? ==> Get(q.bypassed, a) == Some(o.value >= |filters|))
    && (o.None? ==> Get(q.bypassed, a) == Get(p.bypassed, a))
    && (f.Some? ==> f.value < |filters| && Get(q.coeffs, a) == Some(filters[f.value]))
    && (f.None? ==> Get(q.coeffs, a) == Get(p.coeffs, a))
  }

  lemma {:induction false} SettledBypasses(p: Preset, filters: seq<Coeffs>, slots: seq<BeqFilterSlot>, a: Address)
    requires |filters| <= |slots|
    ensures Get(Settled(p, filters, slots).bypassed, a) ==
            match Owner(slots, a) case Some(o) => Some(o >= |filters|) case None => Get(p.bypassed, a)
    decreases slots
  {
    if slots == [] {
    } else if filters == [] {
      SettledBypasses(Silenced(p, slots[0]), [], slots[1..], a);
      GetMarked(p.bypassed, slots[0].Addresses(), true, a);
    } else {
      SettledBypasses(Loaded(p, slots[0], filters[0]), filters[1..], slots[1..], a);
      GetMarked(p.bypassed, slots[0].Addresses(), false, a);
    }
  }

  lemma {:induction false} OwnerStep(slots: seq<BeqFilterSlot>, a: Address)
    requires slots != []
    ensures Owner(slots, a) == match Owner(slots[1..], a)
              case Some(k) => Some(k + 1)
              case None => if a in slots[0].Addresses() then Some(0) else None
  {
  }

  lemma {:induction false} SettledSets(p: Preset, filters: seq<Coeffs>, slots: seq<BeqFilterSlot>, a: Address)
    requires |filters| <= |slots|
    ensures Get(Settled(p, filters, slots).coeffs, a) ==
            match Owner(slots[..|filters|], a)
            case Some(o) => if o < |filters| then Some(filters[o]) else None
            case None => Get(p.coeffs, a)
    decreases slots
  {
    if slots == [] {
    } else if filters == [] {
      SettledSets(Silenced(p, slots[0]), [], slots[1..], a);
    } else {
      var first, rest, todo := Loaded(p, slots[0], filters[0]), slots[1..], filters[1..];
      var used := slots[..|filters|];
      SettledSets(first, todo, rest, a);
      GetMarked(p.coeffs, slots[0].Addresses(), filters[0], a);
      assert used[0] == slots[0] && used[1..] == rest[..|todo|];
      OwnerIsLast(used[1..], a);
      OwnerStep(used, a);
    }
  }

  lemma {:induction false} SettledKeepsLevels(p: Preset, filters: seq<Coeffs>, slots: seq<BeqFilterSlot>)
    ensures Settled(p, filters, slots).gains == p.gains && Settled(p, filters, slots).mutes == p.mutes
    decreases slots
  {
    if slots != [] {
      if filters == [] {
        SettledKeepsLevels(Silenced(p, slots[0]), [], slots[1..]);
      } else {
        SettledKeepsLevels(Loaded(p, slots[0], filters[0]), filters[1..], slots[1..]);
      }
    }
  }

  /** Every biquad ends up with its last owner: bypassed if that slot was left over, and with the coefficients of the
      last filter slot that lists it. A biquad of no slot keeps what it had, and so do all gains and mutes. */
  lemma {:induction false} LastOwnerDecides(p: Preset, filters: seq<Coeffs>, slots: seq<BeqFilterSlot>, a: Address)
    requires |filters| <= |slots|
    ensures Decided(p, WriteAll(p, Compiled(filters, slots)), filters, slots, a)
    ensures WriteAll(p, Compiled(filters, slots)).gains == p.gains
    ensures WriteAll(p, Compiled(filters, slots)).mutes == p.mutes
  {
    CompiledSettles(p, filters, slots);
    SettledBypasses(p, filters, slots, a);
    SettledSets(p, filters, slots, a);
    OwnerIsLast(slots[..|filters|], a);
    SettledKeepsLevels(p, filters, slots);
  }

  // ---- a correct load ----

  /** What the entry asks of a preset: filter k live on every channel of slot k, every other slot bypassed. */
  ghost predicate Holds(p: Preset, filters: seq<Coeffs>, slots: seq<BeqFilterSlot>) {
    forall k, a :: 0 <= k < |slots| && a in slots[k].Addresses() ==>
      Get(p.bypassed, a) == Some(k >= |filters|) && (k < |filters| ==> Get(p.coeffs, a) == Some(filters[k]))
  }

  /** No biquad is asked for by two slots that disagree about it. */
  ghost predicate NoClash(filters: seq<Coeffs>, slots: seq<BeqFilterSlot>) {
    forall j, k, a :: 0 <= j < k < |slots| && a in slots[j].Addresses() && a in slots[k].Addresses() ==>
      if j < |filters| then k < |filters| && filters[j] == filters[k] else true
  }

  /** A load does what the entry asks exactly when no two slots clash, whatever the preset held before. */
  lemma {:induction false} LoadIsCorrectIffNoClash(p: Preset, filters: seq<Coeffs>, slots: seq<BeqFilterSlot>)
    requires |filters| <= |slots|
    ensures Holds(WriteAll(p, Compiled(filters, slots)), filters, slots) <==> NoClash(filters, slots)
  {
    var q := WriteAll(p, Compiled(filters, slots));
    if NoClash(filters, slots) {
      forall k, a | 0 <= k < |slots| && a in slots[k].Addresses()
        ensures Get(q.bypassed, a) == Some(k >= |filters|)
        ensures k < |filters| ==> Get(q.coeffs, a) == Some(filters[k])
      {
        LastOwnerDecides(p, filters, slots, a);
        OwnerIsLast(slots, a);
        OwnerIsLast(slots[..|filters|], a);
        if k < |filters| {
          assert slots[..|filters|][k] == slots[k];
          var f := Owner(slots[..|filters|], a).value;
          assert slots[..|filters|][f] == slots[f];
        }
      }
    }
    if Holds(q, filters, slots) {
      forall j, k, a | 0 <= j < k < |slots| && a in slots[j].Addresses() && a in slots[k].Addresses()
        ensures j < |filters| ==> k < |filters| && filters[j] == filters[k]
      {
        assert Get(q.bypassed, a) == Some(j >= |filters|) && Get(q.bypassed, a) == Some(k >= |filters|);
      }
    }
  }
}
