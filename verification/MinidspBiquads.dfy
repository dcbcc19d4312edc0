/** Loading biquads into chosen channels of a minidsp: the list of dicts they come in, the commands, and their
    effect. */
module MinidspBiquads {
  import opened Common
  import opened MinidspDevice
  import opened MinidspCommands

  /** What a non-empty dict holds: the coefficients and whether BYPASS is set. */
  datatype Bq = Bq(coeffs: Coeffs, bypass: bool)

  /** A Python dict, shared by every reference to it; None is the empty dict. */
  class Dict {
    var items: Option<Bq>

    constructor ()
      ensures items == None
    {
      items := None;
    }
  }

  ghost function Values(commands: seq<Dict>): seq<Option<Bq>>
    reads commands
  {
    seq(|commands|, k requires 0 <= k < |commands| reads commands => commands[k].items)
  }

  // ---- the commands ----

  function PeqAddress(side: string, channel: int, index: nat): Address { Address(side, channel - 1, None, index) }

  /** The commands for one entry of one channel. */
  function EntryCommands(overwrite: bool, side: string, channel: int, entry: Option<Bq>, index: nat): seq<Command> {
    var a := PeqAddress(side, channel, index);
    if entry.Some? then [SetBiquad(a, entry.value.coeffs), Bypass(a, entry.value.bypass)]
    else if overwrite then [Bypass(a, true)] else []
  }

  function EntryAt(bqs: seq<Option<Bq>>, index: nat): Option<Bq> { if index < |bqs| then bqs[index] else None }

  /** The commands for the first k entries of one channel; past the end of the list an entry counts as empty. */
  function ChannelCommands(overwrite: bool, side: string, channel: int, bqs: seq<Option<Bq>>, k: nat): seq<Command> {
    if k == 0 then []
    else
      ChannelCommands(overwrite, side, channel, bqs, k - 1)
      + EntryCommands(overwrite, side, channel, EntryAt(bqs, k - 1), k - 1)
  }

  /** How many entries of a channel are addressed. */
  function Span(overwrite: bool, bqs: seq<Option<Bq>>): nat { if overwrite && |bqs| < 10 then 10 else |bqs| }

  /** The commands for the first n channels of a side. */
  function SideCommands(overwrite: bool, side: string, channels: seq<int>, bqs: seq<Option<Bq>>, n: nat): seq<Command>
    requires n <= |channels|
  {
    if n == 0 then []
    else
      SideCommands(overwrite, side, channels, bqs, n - 1)
      + ChannelCommands(overwrite, side, channels[n - 1], bqs, Span(overwrite, bqs))
  }

  function BiquadCommands(overwrite: bool, inputs: seq<int>, outputs: seq<int>, bqs: seq<Option<Bq>>): seq<Command> {
    SideCommands(overwrite, INPUT_NAME, inputs, bqs, |inputs|)
        + SideCommands(overwrite, OUTPUT_NAME, outputs, bqs, |outputs|)
  }

  method GenerateChannel(overwrite: bool, side: string, channel: int, biquads: seq<Dict>) returns (cmds: seq<Command>)
    ensures cmds == ChannelCommands(overwrite, side, channel, Values(biquads), Span(overwrite, Values(biquads)))
  {
    cmds := [];
    for idx := 0 to |biquads|
      invariant cmds == ChannelCommands(overwrite, side, channel, Values(biquads), idx)
    {
      var bq := biquads[idx].items;
      var a := PeqAddress(side, channel, idx);
      if bq.Some? {
        cmds := cmds + [SetBiquad(a, bq.value.coeffs), Bypass(a, bq.value.bypass)];
      } else if overwrite {
        cmds := cmds + [Bypass(a, true)];
      } else {
        EmptyLast(cmds);
      }
    }
    if overwrite {
      var idx := |biquads|;
      while idx < 10
        invariant |biquads| <= idx <= if |biquads| < 10 then 10 else |biquads|
        invariant cmds == ChannelCommands(overwrite, side, channel, Values(biquads), idx)
      {
        cmds := cmds + [Bypass(PeqAddress(side, channel, idx), true)];
        idx := idx + 1;
      }
    }
  }

  method GenerateSide(
      overwrite: bool, side: string, channels: seq<int>, biquads: seq<Dict>) returns (cmds: seq<Command>)
    ensures cmds == SideCommands(overwrite, side, channels, Values(biquads), |channels|)
  {
    cmds := [];
    for n := 0 to |channels|
      invariant cmds == SideCommands(overwrite, side, channels, Values(biquads), n)
    {
      var more := GenerateChannel(overwrite, side, channels[n], biquads);
      cmds := cmds + more;
    }
  }

  method GenerateBiquads(
      overwrite: bool, inputs: seq<int>, outputs: seq<int>, biquads: seq<Dict>) returns (cmds: seq<Command>)
    ensures cmds == BiquadCommands(overwrite, inputs, outputs, Values(biquads))
  {
    var ins := GenerateSide(overwrite, INPUT_NAME, inputs, biquads);
    var outs := GenerateSide(overwrite, OUTPUT_NAME, outputs, biquads);
    cmds := ins + outs;
  }

  // ---- what the commands do ----

  /** A peq address of one of the chosen channels, below a limit. */
  predicate Chosen(a: Address, channels: set<ChannelId>, limit: nat) {
    a.group.None? && 0 <= a.index < limit && ChannelId(a.side, a.channel) in channels
  }

  /** The preset holds what the entries say in the first `limit` places of the chosen channels, and is otherwise as it
      was. */
  ghost predicate Written(
      p: Preset, q: Preset, overwrite: bool, bqs: seq<Option<Bq>>, channels: set<ChannelId>, limit: nat) {
    && q.gains == p.gains && q.mutes == p.mutes
    && (forall a :: Get(q.coeffs, a) ==
          if Chosen(a, channels, limit) && EntryAt(bqs, a.index).Some? then Some(EntryAt(bqs, a.index).value.coeffs)
              else Get(p.coeffs, a))
    && (forall a :: Get(q.bypassed, a) ==
          if !Chosen(a, channels, limit) then Get(p.bypassed, a)
          else if EntryAt(bqs, a.index).Some? then Some(EntryAt(bqs, a.index).value.bypass)
          else if overwrite then Some(true) else Get(p.bypassed, a))
  }

  lemma {:induction false} EntryIsWritten(
      p: Preset, q: Preset, overwrite: bool, side: string, channel: int, bqs: seq<Option<Bq>>, k: nat)
    requires Written(p, q, overwrite, bqs, {ChannelId(side, channel - 1)}, k)
    ensures Written(p, WriteAll(q, EntryCommands(overwrite, side, channel, EntryAt(bqs, k), k)), overwrite, bqs,
        {ChannelId(side, channel - 1)}, k + 1)
  {
    var a, e := PeqAddress(side, channel, k), EntryAt(bqs, k);
    if e.Some? {
      WriteTwo(q, SetBiquad(a, e.value.coeffs), Bypass(a, e.value.bypass));
    } else if overwrite {
      WriteTwo(q, Bypass(a, true), Bypass(a, true));
    }
  }

  lemma {:induction false} ChannelIsWritten(
      p: Preset, overwrite: bool, side: string, channel: int, bqs: seq<Option<Bq>>, k: nat)
    ensures Written(p, WriteAll(p, ChannelCommands(overwrite, side, channel, bqs, k)), overwrite, bqs,
        {ChannelId(side, channel - 1)}, k)
  {
    if k > 0 {
      ChannelIsWritten(p, overwrite, side, channel, bqs, k - 1);
      var before := ChannelCommands(overwrite, side, channel, bqs, k - 1);
      EntryIsWritten(p, WriteAll(p, before), overwrite, side, channel, bqs, k - 1);
      WriteAllAppend(p, before, EntryCommands(overwrite, side, channel, EntryAt(bqs, k - 1), k - 1));
    }
  }

  lemma {:induction false} WrittenTwice(p: Preset, q: Preset, r: Preset, overwrite: bool, bqs: seq<Option<Bq>>,
      a: set<ChannelId>, b: set<ChannelId>, limit: nat)
    requires Written(p, q, overwrite, bqs, a, limit) && Written(q, r, overwrite, bqs, b, limit)
    ensures Written(p, r, overwrite, bqs, a + b, limit)
  {
  }

  function Ids(side: string, channels: seq<int>): set<ChannelId> { set c | c in channels :: ChannelId(side, c - 1) }

  lemma {:induction false} OneMoreId(side: string, channels: seq<int>, c: int)
    ensures Ids(side, channels + [c]) == Ids(side, channels) + {ChannelId(side, c - 1)}
  {
    forall id: ChannelId
      ensures id in Ids(side, channels + [c]) <==> id in Ids(side, channels) + {ChannelId(side, c - 1)}
    {
      assert id.channel + 1 in channels + [c] <==> id.channel + 1 in channels || id.channel + 1 == c;
    }
  }

  lemma {:induction false} SideIsWritten(
      p: Preset, overwrite: bool, side: string, channels: seq<int>, bqs: seq<Option<Bq>>, n: nat)
    requires n <= |channels|
    ensures Written(p, WriteAll(p, SideCommands(overwrite, side, channels, bqs, n)), overwrite, bqs,
        Ids(side, channels[..n]), Span(overwrite, bqs))
  {
    if n > 0 {
      SideIsWritten(p, overwrite, side, channels, bqs, n - 1);
      var before, c := SideCommands(overwrite, side, channels, bqs, n - 1), channels[n - 1];
      var q := WriteAll(p, before);
      ChannelIsWritten(q, overwrite, side, c, bqs, Span(overwrite, bqs));
      WriteAllAppend(p, before, ChannelCommands(overwrite, side, c, bqs, Span(overwrite, bqs)));
      WrittenTwice(p, q, WriteAll(q, ChannelCommands(overwrite, side, c, bqs, Span(overwrite, bqs))), overwrite, bqs,
                   Ids(side, channels[..n - 1]), {ChannelId(side, c - 1)}, Span(overwrite, bqs));
      assert channels[..n] == channels[..n - 1] + [c];
      OneMoreId(side, channels[..n - 1], c);
    }
  }

  /** The generated commands leave every chosen channel holding the biquads, and touch nothing else. */
  lemma {:induction false} BiquadsReachPreset(
      p: Preset, overwrite: bool, inputs: seq<int>, outputs: seq<int>, bqs: seq<Option<Bq>>)
    ensures Written(p, WriteAll(p, BiquadCommands(overwrite, inputs, outputs, bqs)), overwrite, bqs,
                    Ids(INPUT_NAME, inputs) + Ids(OUTPUT_NAME, outputs), Span(overwrite, bqs))
  {
    var ins := SideCommands(overwrite, INPUT_NAME, inputs, bqs, |inputs|);
    var outs := SideCommands(overwrite, OUTPUT_NAME, outputs, bqs, |outputs|);
    var q := WriteAll(p, ins);
    SideIsWritten(p, overwrite, INPUT_NAME, inputs, bqs, |inputs|);
    SideIsWritten(q, overwrite, OUTPUT_NAME, outputs, bqs, |outputs|);
    assert inputs[..|inputs|] == inputs && outputs[..|outputs|] == outputs;
    WriteAllAppend(p, ins, outs);
    WrittenTwice(p, q, WriteAll(q, outs), overwrite, bqs, Ids(INPUT_NAME, inputs), Ids(OUTPUT_NAME, outputs),
        Span(overwrite, bqs));
  }

  lemma {:induction false} ChannelWritesBiquads(
      overwrite: bool, side: string, channel: int, bqs: seq<Option<Bq>>, k: nat)
    ensures forall i :: 0 <= i < |ChannelCommands(overwrite, side, channel, bqs, k)| ==>
              ChannelCommands(overwrite, side, channel, bqs, k)[i].WritesBiquad()
  {
    if k > 0 { ChannelWritesBiquads(overwrite, side, channel, bqs, k - 1); }
  }

  lemma {:induction false} SideWritesBiquads(
      overwrite: bool, side: string, channels: seq<int>, bqs: seq<Option<Bq>>, n: nat)
    requires n <= |channels|
    ensures forall i :: 0 <= i < |SideCommands(overwrite, side, channels, bqs, n)| ==>
              SideCommands(overwrite, side, channels, bqs, n)[i].WritesBiquad()
  {
    if n > 0 {
      SideWritesBiquads(overwrite, side, channels, bqs, n - 1);
      ChannelWritesBiquads(overwrite, side, channels[n - 1], bqs, Span(overwrite, bqs));
    }
  }

  lemma {:induction false} BiquadsWriteBiquads(
      overwrite: bool, inputs: seq<int>, outputs: seq<int>, bqs: seq<Option<Bq>>)
    ensures forall i :: 0 <= i < |BiquadCommands(overwrite, inputs, outputs, bqs)| ==>
              BiquadCommands(overwrite, inputs, outputs, bqs)[i].WritesBiquad()
  {
    SideWritesBiquads(overwrite, INPUT_NAME, inputs, bqs, |inputs|);
    SideWritesBiquads(overwrite, OUTPUT_NAME, outputs, bqs, |outputs|);
  }
}
