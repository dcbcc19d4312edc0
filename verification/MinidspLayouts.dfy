/** The layouts of the supported minidsp models, and which of them load and clear without loss. */
module MinidspLayouts {
  import opened Common
  import opened MinidspDevice
  import opened MinidspCommands
  import opened MinidspController
  import opened MinidspTheorems

  function ZeroTil(n: nat): seq<int> { seq(n, i => i) }

  function Layout(fs: string, i: Option<PeqRoutes>, xo: Option<PeqRoutes>, o: Option<PeqRoutes>): Descriptor {
    Descriptor(fs, i, xo, o, [])
  }

  function Input(biquads: nat, channels: seq<int>, slots: nat): PeqRoutes {
    PeqRoutes(INPUT_NAME, biquads, channels, ZeroTil(slots), [])
  }

  function Output(biquads: nat, channels: seq<int>, slots: nat): PeqRoutes {
    PeqRoutes(OUTPUT_NAME, biquads, channels, ZeroTil(slots), [])
  }

  function Crossover(biquads: nat, channels: nat, slots: nat, groups: seq<int>): PeqRoutes {
    PeqRoutes(CROSSOVER_NAME, biquads, ZeroTil(channels), ZeroTil(slots), groups)
  }

  /** Which crossover groups of a 10x10 take BEQ, when its crossovers do at all. */
  datatype UseXo = NoXo | OneGroup(g: int) | AllGroups

  datatype Model =
    | M24HD | M812CDSP | MDDRC24 | M410
    | M1010(useXo: UseXo)
    | MHTX(channels: seq<int>, useInputs: bool)
    | MDDRC88(channels: seq<int>)

  function LayoutOf(m: Model): Descriptor {
    match m
    case M24HD =>
      Layout("96000", Some(Input(10, ZeroTil(2), 10)), Some(Crossover(4, 4, 0, ZeroTil(2))),
          Some(Output(10, ZeroTil(4), 0)))
    case M812CDSP =>
      Layout("192000", Some(Input(10, ZeroTil(6), 10)), Some(Crossover(4, 12, 0, ZeroTil(2))),
          Some(Output(10, ZeroTil(12), 0)))
    case MDDRC24 =>
      Layout("48000", None, Some(Crossover(4, 4, 0, ZeroTil(2))), Some(Output(10, ZeroTil(4), 10)))
    case M410 =>
      Layout("96000", Some(Input(5, ZeroTil(2), 5)), None, Some(Output(5, ZeroTil(8), 5)))
    case M1010(NoXo) =>
      Layout("48000", Some(Input(6, ZeroTil(8), 6)), None, Some(Output(6, ZeroTil(8), 4)))
    case M1010(OneGroup(g)) =>
      Layout("48000", Some(Input(6, ZeroTil(8), 6)), Some(Crossover(4, 8, 4, [g])), None)
    case M1010(AllGroups) =>
      Layout("48000", Some(Input(6, ZeroTil(8), 6)), Some(Crossover(4, 8, 4, ZeroTil(2))), None)
    case MHTX(c, true) =>
      Layout("48000", Some(Input(10, c, 10)), Some(Crossover(8, 8, 0, ZeroTil(2))), Some(Output(10, [], 10)))
    case MHTX(c, false) => OutputsOnly(c)
    case MDDRC88(c) => OutputsOnly(c)
  }

  /** BEQ on the chosen outputs; the others form an extra route that takes none, absent when there are no others. */
  function OutputsOnly(c: seq<int>): Descriptor {
    var others := Others(c, 8);
    Descriptor("48000", None, Some(Crossover(8, 8, 0, ZeroTil(2))), Some(Output(10, c, 10)),
               [if others == [] then None else Some(Output(10, others, 0))])
  }

  function Others(c: seq<int>, n: nat): seq<int> {
    if n == 0 then [] else if n - 1 in c then Others(c, n - 1) else Others(c, n - 1) + [n - 1]
  }

  // ---- tidy routes give separate slots ----

  /** No index and no group repeats, and only a crossover tells several groups apart. */
  predicate Tidy(r: PeqRoutes) {
    Distinct(r.beqSlots) && Distinct(r.groups) && (|r.groups| <= 1 || r.name == CROSSOVER_NAME)
  }

  ghost predicate OfIndex(slots: seq<BeqFilterSlot>, r: PeqRoutes, indexes: seq<int>) {
    forall k :: 0 <= k < |slots| ==> slots[k].name == r.name && slots[k].idx in indexes
  }

  lemma {:induction false} TidyRouteSeparates(r: PeqRoutes, indexes: seq<int>)
    requires Distinct(indexes) && Distinct(r.groups) && (|r.groups| <= 1 || r.name == CROSSOVER_NAME)
    ensures Separate(RouteSlots(r, indexes)) && OfIndex(RouteSlots(r, indexes), r, indexes)
  {
    if indexes != [] {
      var n := |indexes| - 1;
      var front, last := RouteSlots(r, indexes[..n]), IndexSlots(r, indexes[n], r.groups);
      TidyRouteSeparates(r, indexes[..n]);
      assert OfIndex(last, r, [indexes[n]]);
      assert indexes == indexes[..n] + [indexes[n]];
      assert Separate(last);
      forall j, k, a | 0 <= j < |front| && 0 <= k < |last| && a in front[j].Addresses()
        ensures a !in last[k].Addresses()
      {
        assert a.index == front[j].idx && front[j].idx in indexes[..n];
      }
      JoinSeparates(front, last);
    }
  }

  lemma {:induction false} JoinSeparates(a: seq<BeqFilterSlot>, b: seq<BeqFilterSlot>)
    requires Separate(a) && Separate(b)
    requires forall j, k, x :: 0 <= j < |a| && 0 <= k < |b| && x in a[j].Addresses() ==> x !in b[k].Addresses()
    ensures Separate(a + b)
  {
    var s := a + b;
    forall j, k | 0 <= j < k < |s|
      ensures s[j].Addresses() !! s[k].Addresses()
    {
      if j < |a| <= k {
        assert s[j] == a[j] && s[k] == b[k - |a|];
      } else if k < |a| {
        assert s[j] == a[j] && s[k] == a[k];
      } else {
        assert s[j] == b[j - |a|] && s[k] == b[k - |a|];
      }
    }
  }

  function PrintedSide(name: string): string { if name == CROSSOVER_NAME then OUTPUT_NAME else name }

  /** Two BEQ routes printed on different sides never meet. */
  lemma {:induction false} TwoRoutesSeparate(r1: Option<PeqRoutes>, r2: Option<PeqRoutes>)
    requires r1.Some? && r1.value.TakesBeq() ==> Tidy(r1.value)
    requires r2.Some? && r2.value.TakesBeq() ==> Tidy(r2.value)
    requires r1.Some? && r2.Some? && r1.value.TakesBeq() && r2.value.TakesBeq() ==>
               PrintedSide(r1.value.name) != PrintedSide(r2.value.name)
    ensures Separate(BeqSlots(r1) + BeqSlots(r2))
  {
    var a, b := BeqSlots(r1), BeqSlots(r2);
    if r1.Some? && r1.value.TakesBeq() { TidyRouteSeparates(r1.value, r1.value.beqSlots); }
    if r2.Some? && r2.value.TakesBeq() { TidyRouteSeparates(r2.value, r2.value.beqSlots); }
    forall j, k, x | 0 <= j < |a| && 0 <= k < |b| && x in a[j].Addresses()
      ensures x !in b[k].Addresses()
    {
      assert x.side == PrintedSide(r1.value.name);
    }
    JoinSeparates(a, b);
  }

  lemma {:induction false} ThreeMoreRoutes(
      rs: seq<Option<PeqRoutes>>, i: Option<PeqRoutes>, xo: Option<PeqRoutes>, o: Option<PeqRoutes>)
    ensures AllocatorSlots(rs + [i, xo, o]) == AllocatorSlots(rs) + BeqSlots(i) + BeqSlots(xo) + BeqSlots(o)
  {
    var one, two, three := rs + [i], rs + [i, xo], rs + [i, xo, o];
    assert two == one + [xo] && three == two + [o];
    OneMoreRoute(rs, i, one);
    OneMoreRoute(one, xo, two);
    OneMoreRoute(two, o, three);
  }

  lemma {:induction false} SilentExtra(rs: seq<Option<PeqRoutes>>, extra: seq<Option<PeqRoutes>>)
    requires |extra| <= 1 && (extra != [] ==> BeqSlots(extra[0]) == [])
    ensures AllocatorSlots(rs + extra) == AllocatorSlots(rs)
  {
    if extra == [] {
      assert rs + extra == rs;
    } else {
      OneMoreRoute(rs, extra[0], rs + extra);
    }
  }

  lemma {:induction false} FirstThreeRoutes(i: Option<PeqRoutes>, xo: Option<PeqRoutes>, o: Option<PeqRoutes>)
    ensures AllocatorSlots([i, xo, o]) == BeqSlots(i) + BeqSlots(xo) + BeqSlots(o)
  {
    ThreeMoreRoutes([], i, xo, o);
    EmptyFirst([i, xo, o]);
    EmptyFirst(BeqSlots(i));
  }

  lemma {:induction false} RoutesInOrder(d: Descriptor)
    requires |d.extra| <= 1 && (d.extra != [] ==> BeqSlots(d.extra[0]) == [])
    ensures Slots(d) == BeqSlots(d.input) + BeqSlots(d.crossover) + BeqSlots(d.output)
  {
    SilentExtra([d.input, d.crossover, d.output], d.extra);
    FirstThreeRoutes(d.input, d.crossover, d.output);
  }

  lemma {:induction false} OneMoreRoute(rs: seq<Option<PeqRoutes>>, r: Option<PeqRoutes>, more: seq<Option<PeqRoutes>>)
    requires more == rs + [r]
    ensures AllocatorSlots(more) == AllocatorSlots(rs) + BeqSlots(r)
  {
    assert more[..|more| - 1] == rs;
  }

  ghost predicate TidyRoute(r: Option<PeqRoutes>, name: string) {
    r.Some? ==> r.value.name == name && Tidy(r.value)
  }

  /** The shape all shipped layouts share: BEQ on the inputs and on at most one of the two output sections. */
  ghost predicate Simple(d: Descriptor) {
    && TidyRoute(d.input, INPUT_NAME) && TidyRoute(d.crossover, CROSSOVER_NAME) && TidyRoute(d.output, OUTPUT_NAME)
    && (BeqSlots(d.crossover) == [] || BeqSlots(d.output) == [])
    && |d.extra| <= 1 && (d.extra != [] ==> BeqSlots(d.extra[0]) == [])
  }

  lemma {:induction false} SimpleLayoutsAreSeparate(d: Descriptor)
    requires Simple(d)
    ensures Separate(Slots(d))
  {
    RoutesInOrder(d);
    var a, b, x := BeqSlots(d.input), BeqSlots(d.crossover), BeqSlots(d.output);
    TwoRoutesSeparate(d.input, d.crossover);
    TwoRoutesSeparate(d.input, d.output);
    assert a + b + x == if x == [] then a + b else a + x;
  }

  lemma {:induction false} OutputsOnlyIsSimple(c: seq<int>)
    ensures Simple(OutputsOnly(c))
  {
  }

  lemma {:induction false} TenByTenIsSimple(xo: UseXo)
    ensures Simple(LayoutOf(M1010(xo)))
  {
  }

  lemma {:induction false} ShippedLayoutsAreSimple(m: Model)
    ensures Simple(LayoutOf(m))
  {
    match m
    case MHTX(c, false) => OutputsOnlyIsSimple(c);
    case MDDRC88(c) => OutputsOnlyIsSimple(c);
    case M1010(xo) => TenByTenIsSimple(xo);
    case _ =>
  }

  /** Every shipped layout has separate slots: whatever the entry and whatever the preset, a load on it is correct. */
  lemma {:induction false} ShippedLayoutsAreSeparate(m: Model)
    ensures Separate(Slots(LayoutOf(m)))
  {
    ShippedLayoutsAreSimple(m);
    SimpleLayoutsAreSeparate(LayoutOf(m));
  }

  lemma {:induction false} LoadIsCorrectOnShippedLayouts(m: Model)
    ensures LoadsEveryEntry(LayoutOf(m))
  {
    ShippedLayoutsAreSeparate(m);
    LoadsEveryEntryIffSeparate(LayoutOf(m));
  }

  /** A custom layout may give an output route groups, which its commands do not tell apart. */
  function GroupedOutput(): Descriptor {
    Descriptor("96000", None, None, Some(PeqRoutes(OUTPUT_NAME, 10, [0], [0], [0, 1])), [])
  }

  lemma {:induction false} GroupedOutputSlots()
    ensures Slots(GroupedOutput()) ==
            [BeqFilterSlot(OUTPUT_NAME, 0, [0], Some(0)), BeqFilterSlot(OUTPUT_NAME, 0, [0], Some(1))]
  {
    var d := GroupedOutput();
    var r := d.output.value;
    RoutesInOrder(d);
    assert [0][..0] == [];
    assert RouteSlots(r, []) == [];
    assert BeqSlots(d.output) == GroupSlots(r, 0, [0, 1]);
  }

  /** On it an entry of one filter is lost: the second slot bypasses the biquad the first one set. */
  lemma {:induction false} GroupedOutputLosesFilter(dev: Device, slot: int)
    requires dev.Valid() && SlotInRange(slot)
    ensures Commands(GroupedOutput(), LoadFilter(slot, FlatEntry(1))).Ok?
    ensures !LoadHolds(GroupedOutput(), dev, slot, FlatEntry(1))
  {
    GroupedOutputSlots();
    var slots, a := Slots(GroupedOutput()), Address(OUTPUT_NAME, 0, None, 0);
    assert OUTPUT_NAME[0] != CROSSOVER_NAME[0];
    assert 0 in slots[0].channels && a == AddressOf(OUTPUT_NAME, 0, Some(0), 0);
    assert 0 in slots[1].channels && a == AddressOf(OUTPUT_NAME, 0, Some(1), 0);
    SharingLosesFilters(GroupedOutput(), dev, slot, 0, 1, a);
  }

  lemma {:induction false} InputRouteTakes(d: Descriptor, c: int)
    requires Simple(d) && d.input.Some? && d.input.value.TakesBeq() && d.input.value.groups == []
    ensures TakesBeqInput(Slots(d), c) <==> c in d.input.value.channels
  {
    RoutesInOrder(d);
    var a, b, x := BeqSlots(d.input), BeqSlots(d.crossover), BeqSlots(d.output);
    RouteNames(d.input.value, d.input.value.beqSlots);
    if d.crossover.Some? { RouteNames(d.crossover.value, d.crossover.value.beqSlots); }
    if d.output.Some? { RouteNames(d.output.value, d.output.value.beqSlots); }
    assert forall k :: 0 <= k < |a| ==> Slots(d)[k] == a[k];
    assert forall k :: |a| <= k < |Slots(d)| ==> Slots(d)[k] in b || Slots(d)[k] in x;
    assert Slots(d)[0] in a;
  }

  lemma {:induction false} RouteNames(r: PeqRoutes, indexes: seq<int>)
    ensures forall s :: s in RouteSlots(r, indexes) ==> s.name == r.name && s.channels == r.channels
    ensures indexes != [] && r.groups == [] ==> RouteSlots(r, indexes) != []
  {
    if indexes != [] {
      var n := |indexes| - 1;
      RouteNames(r, indexes[..n]);
      var front, last := RouteSlots(r, indexes[..n]), IndexSlots(r, indexes[n], r.groups);
      forall s: BeqFilterSlot | s in front + last
        ensures s.name == r.name && s.channels == r.channels
      {
        if s !in front {
          var k :| 0 <= k < |last| && last[k] == s;
        }
      }
    }
  }

  /** The record follows clears on every shipped layout but an HTx that takes BEQ on its inputs, and on that one exactly
      when the chosen inputs include the first so many. */
  lemma {:induction false} ShippedLayoutsFollowClears(m: Model)
    ensures CoversInputs(LayoutOf(m)) <==> (m.MHTX? && m.useInputs ==> forall i :: 0 <= i < |m.channels| ==>
        i in m.channels)
  {
    var d := LayoutOf(m);
    ShippedLayoutsAreSimple(m);
    if d.Inputs() > 0 {
      forall c | 0 <= c < d.Inputs()
        ensures TakesBeqInput(Slots(d), c) <==> c in d.input.value.channels
      {
        InputRouteTakes(d, c);
      }
      if !m.MHTX? {
        forall c | 0 <= c < d.Inputs()
          ensures c in d.input.value.channels
        {
          assert d.input.value.channels[c] == c;
        }
      }
    }
  }
}
