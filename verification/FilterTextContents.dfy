/** What filter text leaves on a minidsp, line by line. */
module FilterTextContents {
  import opened Common
  import opened Text
  import opened MinidspDevice
  import opened MinidspCommands
  import opened MinidspBiquads
  import opened MinidspController
  import opened MinidspTheorems
  import opened MinidspRoutes
  import opened FilterLines
  import opened FilterText

  /** A line is empty, or matches and names a filter from 1 to 10 whose coefficients can be computed. */
  predicate IsGood(design: FilterLine -> Option<Coeffs>, line: string) {
    line == "" ||
    (MatchLine(line).Some? && 1 <= MatchLine(line).value.number <= 10 && design(MatchLine(line).value).Some?)
  }

  predicate AllGood(design: FilterLine -> Option<Coeffs>, lines: seq<string>) {
    forall i :: 0 <= i < |lines| ==> IsGood(design, lines[i])
  }

  /** Text is accepted exactly if every line is good. */
  lemma {:induction false} AcceptedIffGood(design: FilterLine -> Option<Coeffs>, lines: seq<string>)
    ensures FirstFault(Reader(MatchLine, design), lines, |lines|).None? <==> AllGood(design, lines)
  {
    var reader := Reader(MatchLine, design);
    AcceptedIff(reader, lines, |lines|);
    forall i | 0 <= i < |lines|
      ensures Fault(reader, lines[i], i).None? <==> IsGood(design, lines[i])
    {
    }
  }

  /** A line that names filter n. */
  predicate Names(line: string, n: int) { line != "" && MatchLine(line).Some? && MatchLine(line).value.number == n }

  /** A channel, counted from 1, that the text is loaded into. */
  predicate IsTarget(side: string, c: int, inputs: seq<int>, outputs: seq<int>) {
    (side == "input" && c in inputs) || (side == "output" && c in outputs)
  }

  /** The ten entries of text, and the device once they have been loaded into a slot. */
  function TextEntries(design: FilterLine -> Option<Coeffs>, lines: seq<string>): seq<Option<Bq>> {
    Entries(Reader(MatchLine, design), lines)
  }

  function Loaded(
      d: Descriptor, dev: Device, slot: int, overwrite: bool, inputs: seq<int>, outputs: seq<int>, bqs: seq<Option<Bq>>)
      : (r: Device)
    requires dev.Valid() && 1 <= slot <= 4
    ensures |r.presets| == 4
  {
    BiquadsAreIsolated(d, dev, slot, overwrite, inputs, outputs, bqs);
    DeviceStep(d, dev, LoadBiquads(slot, overwrite, inputs, outputs, bqs))
  }

  lemma {:induction false} LastLineEntry(
      design: FilterLine -> Option<Coeffs>, lines: seq<string>, i: nat, m: FilterLine)
    requires AllGood(design, lines) && i < |lines| && lines[i] != "" && MatchLine(lines[i]) == Some(m)
    requires forall j :: i < j < |lines| ==> !Names(lines[j], m.number)
    ensures 1 <= m.number <= 10 && |TextEntries(design, lines)| == 10 && design(m).Some?
    ensures TextEntries(design, lines)[m.number - 1] == Some(Bq(design(m).value, !m.on))
  {
    var reader := Reader(MatchLine, design);
    AcceptedIffGood(design, lines);
    assert IsGood(design, lines[i]);
    forall j | i < j < |lines|
      ensures !About(reader, lines[j], m.number)
    {
      assert !Names(lines[j], m.number);
    }
    LastLineDecides(reader, lines, m.number - 1, i);
  }

  lemma {:induction false} UnnamedEntry(design: FilterLine -> Option<Coeffs>, lines: seq<string>, n: int)
    requires AllGood(design, lines) && lines != [] && 1 <= n <= 10
    requires forall j :: 0 <= j < |lines| ==> !Names(lines[j], n)
    ensures |TextEntries(design, lines)| == 10 && TextEntries(design, lines)[n - 1].None?
  {
    var reader := Reader(MatchLine, design);
    AcceptedIffGood(design, lines);
    forall j | 0 <= j < |lines|
      ensures !About(reader, lines[j], n)
    {
      assert !Names(lines[j], n);
    }
    UnnamedStaysEmpty(reader, lines, n - 1);
  }

  lemma {:induction false} EntryReachesDevice(
      d: Descriptor, dev: Device, slot: int, overwrite: bool, inputs: seq<int>, outputs: seq<int>, bqs: seq<Option<Bq>>,
      n: int, side: string, c: int)
    requires dev.Valid() && 1 <= slot <= 4 && IsTarget(side, c, inputs, outputs) && |bqs| == 10 && 1 <= n <= 10
    ensures
      var p, q := dev.presets[slot - 1], Loaded(d, dev, slot, overwrite, inputs, outputs, bqs).presets[slot - 1];
      var a := Address(side, c - 1, None, n - 1);
      if bqs[n - 1].Some? then
        Get(q.coeffs, a) == Some(bqs[n - 1].value.coeffs) && Get(q.bypassed, a) == Some(bqs[n - 1].value.bypass)
      else
        && Get(q.coeffs, a) == Get(p.coeffs, a)
        && Get(q.bypassed, a) == if overwrite then Some(true) else Get(p.bypassed, a)
  {
    BiquadsReachChannels(d, dev, slot, overwrite, inputs, outputs, bqs, Address(side, c - 1, None, n - 1));
  }

  /** In accepted text, the last line that names a filter decides the place of that filter on every channel the text is
      loaded into: it has the coefficients designed for what the line says, and is bypassed exactly if the line says
      OFF. */
  lemma {:induction false} LastLineReachesDevice(
      d: Descriptor, dev: Device, slot: int, overwrite: bool, inputs: seq<int>, outputs: seq<int>,
      design: FilterLine -> Option<Coeffs>, lines: seq<string>, i: nat, m: FilterLine, side: string, c: int)
    requires dev.Valid() && 1 <= slot <= 4 && AllGood(design, lines) && IsTarget(side, c, inputs, outputs)
    requires i < |lines| && lines[i] != "" && MatchLine(lines[i]) == Some(m)
    requires forall j :: i < j < |lines| ==> !Names(lines[j], m.number)
    ensures
      var q := Loaded(d, dev, slot, overwrite, inputs, outputs, TextEntries(design, lines)).presets[slot - 1];
      var a := Address(side, c - 1, None, m.number - 1);
      design(m).Some? && Get(q.coeffs, a) == design(m) && Get(q.bypassed, a) == Some(!m.on)
  {
    LastLineEntry(design, lines, i, m);
    EntryReachesDevice(d, dev, slot, overwrite, inputs, outputs, TextEntries(design, lines), m.number, side, c);
  }

  /** A line with any spaces between its words is read for exactly what it says. */
  lemma {:induction false} WrittenLineIsRead(
      g: Gaps, digits: string, on: bool, kind: string, fc: Number, gain: Number, q: Number, tail: string)
    requires g.Valid() && IsDigits(digits) && kind in ["PEQ", "PK", "LS", "HS"]
    requires fc.Valid() && gain.Valid() && q.Valid() && !fc.negative && !q.negative && !StartsWithDigit(tail)
    ensures MatchLine(LineText(g, digits, on, kind, NumbersText(g, fc, gain, q, tail))) ==
            Some(FilterLine(ReadNat(digits), on, kind, fc.Text(), gain.Text(), q.Text()))
  {
    var k :| 0 <= k < 4 && KINDS[k] == kind;
    LineIsReadBack(g, digits, on, k, fc, gain, q, tail);
  }

  /** The place of a filter no line names keeps its coefficients, and is bypassed exactly if overwrite is asked for or
      it was before. */
  lemma {:induction false} UnnamedPlace(
      d: Descriptor, dev: Device, slot: int, overwrite: bool, inputs: seq<int>, outputs: seq<int>,
      design: FilterLine -> Option<Coeffs>, lines: seq<string>, n: int, side: string, c: int)
    requires dev.Valid() && 1 <= slot <= 4 && AllGood(design, lines) && IsTarget(side, c, inputs, outputs)
    requires lines != [] && 1 <= n <= 10 && forall j :: 0 <= j < |lines| ==> !Names(lines[j], n)
    ensures
      var p := dev.presets[slot - 1];
      var q := Loaded(d, dev, slot, overwrite, inputs, outputs, TextEntries(design, lines)).presets[slot - 1];
      var a := Address(side, c - 1, None, n - 1);
      && Get(q.coeffs, a) == Get(p.coeffs, a)
      && Get(q.bypassed, a) == if overwrite then Some(true) else Get(p.bypassed, a)
  {
    UnnamedEntry(design, lines, n);
    EntryReachesDevice(d, dev, slot, overwrite, inputs, outputs, TextEntries(design, lines), n, side, c);
  }
}
