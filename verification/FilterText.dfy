/** Filter text turned into biquads, and what loading it does to a minidsp. */
module FilterText {
  import opened Common
  import opened MinidspDevice
  import opened MinidspCommands
  import opened MinidspBiquads
  import opened MinidspController
  import opened MinidspTheorems
  import opened FilterLines

  datatype TextError = OutOfRange(index: nat, number: int) | DoesNotMatch(index: nat) | CannotDesign(index: nat)

  /** How a line is matched, and convert_to_bq: the coefficients of a filter, None when computing them raises. */
  datatype Reader = Reader(matches: string -> Option<FilterLine>, design: FilterLine -> Option<Coeffs>)

  // ---- what lines mean ----

  /** What is wrong with a line, if anything. */
  function Fault(reader: Reader, line: string, index: nat): Option<TextError> {
    if line == [] then None else
    match reader.matches(line)
    case None => Some(DoesNotMatch(index))
    case Some(m) =>
      if !(0 < m.number < 11) then Some(OutOfRange(index, m.number))
      else if reader.design(m).None? then Some(CannotDesign(index))
      else None
  }

  /** The first fault of the first n lines. */
  function FirstFault(reader: Reader, lines: seq<string>, n: nat): Option<TextError>
    requires n <= |lines|
  {
    if n == 0 then None
    else if FirstFault(reader, lines, n - 1).Some? then FirstFault(reader, lines, n - 1)
    else Fault(reader, lines[n - 1], n - 1)
  }

  /** Whether a line is about filter k. */
  predicate About(reader: Reader, line: string, k: int) {
    line != [] && reader.matches(line).Some? && reader.matches(line).value.number == k
  }

  /** What a line about a filter makes of it. */
  function Meaning(reader: Reader, line: string): Option<Bq> {
    match reader.matches(line)
    case None => None
    case Some(m) => if reader.design(m).None? then None else Some(Bq(reader.design(m).value, !m.on))
  }

  /** The last of the first n lines about filter k, None if there is none. */
  function LastAbout(reader: Reader, lines: seq<string>, k: int, n: nat): (i: Option<nat>)
    requires n <= |lines|
    ensures i.Some? ==> i.value < n && About(reader, lines[i.value], k) && forall j :: i.value < j < n ==>
        !About(reader, lines[j], k)
    ensures i.None? ==> forall j :: 0 <= j < n ==> !About(reader, lines[j], k)
  {
    if n == 0 then None else if About(reader, lines[n - 1], k) then Some(n - 1) else LastAbout(reader, lines, k, n - 1)
  }

  /** Entry k (from 0) after the first n lines. */
  function Entry(reader: Reader, lines: seq<string>, k: nat, n: nat): Option<Bq>
    requires n <= |lines|
  {
    var i := LastAbout(reader, lines, k + 1, n);
    if i.None? then None else Meaning(reader, lines[i.value])
  }

  /** The ten entries the text stands for; none for no lines at all. */
  function Entries(reader: Reader, lines: seq<string>): seq<Option<Bq>> {
    if lines == [] then [] else seq(10, k requires 0 <= k < 10 => Entry(reader, lines, k, |lines|))
  }

  // ---- the parser ----

  /** text_to_commands('filt', lines): all ten entries start as one shared dict, and a line replaces the entry it
      names. */
  method ParseFilters(reader: Reader, lines: seq<string>) returns (r: Result<seq<Dict>, TextError>)
    ensures r.Ok? <==> FirstFault(reader, lines, |lines|).None?
    ensures r.Ok? ==> fresh(r.value) && Values(r.value) == Entries(reader, lines)
    ensures r.Err? ==> Some(r.error) == FirstFault(reader, lines, |lines|)
  {
    if lines == [] { return Ok([]); }
    var shared := new Dict();
    var commands: seq<Dict> := [shared, shared, shared, shared, shared, shared, shared, shared, shared, shared];
    for n := 0 to |lines|
      invariant |commands| == 10 && fresh(shared) && shared.items.None? && fresh(commands)
      invariant FirstFault(reader, lines, n).None?
      invariant forall j, k :: 0 <= j < k < 10 ==> commands[j] != commands[k] || commands[j] == shared
      invariant forall k :: 0 <= k < 10 ==> (commands[k] == shared <==> LastAbout(reader, lines, k + 1, n).None?)
      invariant forall k :: 0 <= k < 10 ==> commands[k].items == Entry(reader, lines, k, n)
    {
      var line := lines[n];
      if line != [] {
        var m := reader.matches(line);
        if m.None? {
          FaultStays(reader, lines, n + 1);
          return Err(DoesNotMatch(n));
        }
        var number := m.value.number;
        if !(0 < number < 11) {
          FaultStays(reader, lines, n + 1);
          return Err(OutOfRange(n, number));
        }
        var coeffs := reader.design(m.value);
        if coeffs.None? {
          FaultStays(reader, lines, n + 1);
          return Err(CannotDesign(n));
        }
        var bq := new Dict();
        bq.items := Some(Bq(coeffs.value, false));
        commands := commands[number - 1 := bq];
        if !m.value.on {
          commands[number - 1].items := Some(Bq(coeffs.value, true));
        }
      }
    }
    return Ok(commands);
  }

  method TextToCommands(
      design: FilterLine -> Option<Coeffs>, lines: seq<string>) returns (r: Result<seq<Dict>, TextError>)
    ensures r.Ok? <==> FirstFault(Reader(MatchLine, design), lines, |lines|).None?
    ensures r.Ok? ==> fresh(r.value) && Values(r.value) == Entries(Reader(MatchLine, design), lines)
    ensures r.Err? ==> Some(r.error) == FirstFault(Reader(MatchLine, design), lines, |lines|)
  {
    r := ParseFilters(Reader(MatchLine, design), lines);
  }

  lemma {:induction false} FaultStays(reader: Reader, lines: seq<string>, n: nat)
    requires n <= |lines| && FirstFault(reader, lines, n).Some?
    ensures FirstFault(reader, lines, |lines|) == FirstFault(reader, lines, n)
    decreases |lines| - n
  {
    if n < |lines| { FaultStays(reader, lines, n + 1); }
  }

  /** Text is accepted exactly if no line of it is at fault. */
  lemma {:induction false} AcceptedIff(reader: Reader, lines: seq<string>, n: nat)
    requires n <= |lines|
    ensures FirstFault(reader, lines, n).None? <==> forall i :: 0 <= i < n ==> Fault(reader, lines[i], i).None?
  {
    if n > 0 { AcceptedIff(reader, lines, n - 1); }
  }

  /** An entry is empty exactly if no line names its filter. */
  lemma {:induction false} UnnamedStaysEmpty(reader: Reader, lines: seq<string>, k: nat)
    requires FirstFault(reader, lines, |lines|).None? && lines != [] && k < 10
    ensures Entries(reader, lines)[k].None? <==> forall i :: 0 <= i < |lines| ==> !About(reader, lines[i], k + 1)
  {
    AcceptedIff(reader, lines, |lines|);
    var i := LastAbout(reader, lines, k + 1, |lines|);
    if i.Some? { assert Fault(reader, lines[i.value], i.value).None?; }
  }

  /** Otherwise the last line that names it decides it, bypassed exactly if that line says OFF. */
  lemma {:induction false} LastLineDecides(reader: Reader, lines: seq<string>, k: nat, i: nat)
    requires FirstFault(reader, lines, |lines|).None? && k < 10 && i < |lines| && About(reader, lines[i], k + 1)
    requires forall j :: i < j < |lines| ==> !About(reader, lines[j], k + 1)
    ensures var m := reader.matches(lines[i]).value;
      reader.design(m).Some? && Entries(reader, lines)[k] == Some(Bq(reader.design(m).value, !m.on))
  {
    AcceptedIff(reader, lines, |lines|);
    assert Fault(reader, lines[i], i).None?;
    assert LastAbout(reader, lines, k + 1, |lines|) == Some(i);
  }

  // ---- what the text does to a device ----

  /** With overwrite, which of the ten places of a chosen channel are silent, and what the others hold, depends on the
      text alone; without it, a place no line names stays as it was. */
  lemma {:induction false} TextDecidesTen(
      p: Preset, overwrite: bool, inputs: seq<int>, outputs: seq<int>, reader: Reader, lines: seq<string>, a: Address)
    requires lines != [] && Chosen(a, Ids(INPUT_NAME, inputs) + Ids(OUTPUT_NAME, outputs), 10)
    ensures
      var q, e := WriteAll(p, BiquadCommands(overwrite, inputs, outputs, Entries(reader, lines))),
          Entry(reader, lines, a.index, |lines|);
      && (e.Some? ==> Get(q.coeffs, a) == Some(e.value.coeffs) && Get(q.bypassed, a) == Some(e.value.bypass))
      && (e.None? && overwrite ==> Get(q.bypassed, a) == Some(true))
      && (e.None? && !overwrite ==> Get(q.coeffs, a) == Get(p.coeffs, a) && Get(q.bypassed, a) == Get(p.bypassed, a))
  {
    BiquadsReachPreset(p, overwrite, inputs, outputs, Entries(reader, lines));
  }

  /** Loaded from any preset, the text changes the preset of the slot and no other. */
  lemma {:induction false} TextIsIsolated(
      d: Descriptor, dev: Device, slot: int, overwrite: bool, inputs: seq<int>, outputs: seq<int>, reader: Reader,
      lines: seq<string>)
    requires dev.Valid() && SlotInRange(slot)
    ensures
      var bqs := Entries(reader, lines);
      var after := DeviceStep(d, dev, LoadBiquads(slot, overwrite, inputs, outputs, bqs));
      && OthersKept(dev, after, slot)
      && Written(dev.presets[slot - 1], after.presets[slot - 1], overwrite, bqs,
                 Ids(INPUT_NAME, inputs) + Ids(OUTPUT_NAME, outputs), Span(overwrite, bqs))
  {
    var bqs := Entries(reader, lines);
    BiquadsAreIsolated(d, dev, slot, overwrite, inputs, outputs, bqs);
    BiquadsReachPreset(dev.presets[slot - 1], overwrite, inputs, outputs, bqs);
  }
}
