/** The hardware side of a minidsp: four presets and the commands its CLI applies to them. */
module MinidspDevice {
  import opened Common

  const INPUT_NAME := "input"
  const OUTPUT_NAME := "output"
  const CROSSOVER_NAME := "crossover"
  const PRESETS := 4

  /** The five coefficient strings of a biquad, kept opaque. */
  type Coeffs = seq<string>

  /** A biquad as a command names it: `group` is None in the peq bank, the crossover group otherwise. */
  datatype Address = Address(side: string, channel: int, group: Option<int>, index: int)

  datatype ChannelId = ChannelId(side: string, channel: int)

  /** What one preset remembers; an absent key is a value nobody has written yet. */
  datatype Preset = Preset(
    coeffs: map<Address, Coeffs>,
    bypassed: map<Address, bool>,
    gains: map<ChannelId, real>,
    mutes: map<ChannelId, bool>)

  datatype Device = Device(presets: seq<Preset>, active: nat, volume: real, mute: bool) {
    predicate Valid() { |presets| == PRESETS && active < PRESETS }
  }

  datatype Command =
    | Config(preset: int)
    | SetBiquad(biquad: Address, coeffs: Coeffs)
    | Bypass(biquad: Address, on: bool)
    | Gain(input: ChannelId, db: real)
    | Mute(input: ChannelId, on: bool)
    | MasterGain(db: real)
    | MasterMute(on: bool)
  {
    /** Commands that write the active preset, as opposed to the master section. */
    predicate WritesPreset() { WritesBiquad() || Gain? || Mute? }

    predicate WritesBiquad() { SetBiquad? || Bypass? }
  }

  function Write(p: Preset, c: Command): Preset {
    match c
    case SetBiquad(a, coeffs) => p.(coeffs := p.coeffs[a := coeffs])
    case Bypass(a, on) => p.(bypassed := p.bypassed[a := on])
    case Gain(ch, db) => p.(gains := p.gains[ch := db])
    case Mute(ch, on) => p.(mutes := p.mutes[ch := on])
    case _ => p
  }

  function WriteAll(p: Preset, cmds: seq<Command>): Preset
    decreases cmds
  {
    if cmds == [] then p else WriteAll(Write(p, cmds[0]), cmds[1..])
  }

  /** One command line applied by the device; it ignores presets it does not have. */
  function Exec(d: Device, c: Command): Device {
    match c
    case Config(n) => if 0 <= n < |d.presets| then d.(active := n) else d
    case MasterGain(db) => d.(volume := db)
    case MasterMute(on) => d.(mute := on)
    case _ => if d.active < |d.presets| then d.(presets := d.presets[d.active := Write(d.presets[d.active], c)]) else d
  }

  function ExecAll(d: Device, cmds: seq<Command>): Device
    decreases cmds
  {
    if cmds == [] then d else ExecAll(Exec(d, cmds[0]), cmds[1..])
  }

  lemma {:induction false} WriteAllAppend(p: Preset, a: seq<Command>, b: seq<Command>)
    ensures WriteAll(p, a + b) == WriteAll(WriteAll(p, a), b)
    decreases a
  {
    if a == [] {
      assert a + b == b;
    } else {
      assert (a + b)[1..] == a[1..] + b;
      WriteAllAppend(Write(p, a[0]), a[1..], b);
    }
  }

  /** Preset commands change the active preset, by WriteAll, and nothing else on the device. */
  lemma {:induction false} ExecAllOnPreset(d: Device, cmds: seq<Command>)
    requires d.Valid()
    requires forall i :: 0 <= i < |cmds| ==> cmds[i].WritesPreset()
    ensures ExecAll(d, cmds) == d.(presets := d.presets[d.active := WriteAll(d.presets[d.active], cmds)])
    decreases cmds
  {
    if cmds == [] {
      assert d.presets[d.active := d.presets[d.active]] == d.presets;
    } else {
      assert cmds[0].WritesPreset();
      ExecAllOnPreset(Exec(d, cmds[0]), cmds[1..]);
    }
  }

  // ---- printed gains ----

  function RoundHalfEven(x: real): int {
    var f := x.Floor;
    var d := x - f as real;
    if d < 0.5 then f else if d > 0.5 then f + 1 else if f % 2 == 0 then f else f + 1
  }

  /** The value a gain has once printed with two decimals. */
  function TwoDecimals(g: real): real {
    RoundHalfEven(g * 100.0) as real / 100.0
  }

  /** Printing a gain moves it by at most half a hundredth, and printing it again changes nothing. */
  lemma {:induction false} PrintedGainIsClose(g: real)
    ensures -0.005 <= TwoDecimals(g) - g <= 0.005
    ensures TwoDecimals(TwoDecimals(g)) == TwoDecimals(g)
  {
    var n := RoundHalfEven(g * 100.0);
    assert n as real / 100.0 * 100.0 == n as real;
    assert (n as real).Floor == n;
  }

  /** It is printed as the nearest number of hundredths, the even one where two are as near. */
  lemma {:induction false} PrintedGainIsNearest(g: real, n: int)
    ensures TwoDecimals(g) == n as real / 100.0 <==>
            -0.5 <= n as real - g * 100.0 <= 0.5
            && ((n as real - g * 100.0 == 0.5 || n as real - g * 100.0 == -0.5) ==> n % 2 == 0)
  {
    var m := RoundHalfEven(g * 100.0);
    assert m as real / 100.0 == n as real / 100.0 <==> m == n;
  }

  /** A gain accepted by a guard with whole-number bounds is still inside them once printed. */
  lemma {:induction false} PrintedGainStaysInRange(g: real, low: int, high: int)
    requires low as real <= g <= high as real
    ensures low as real <= TwoDecimals(g) <= high as real
  {
    var x := g * 100.0;
    assert (low * 100) as real <= x <= (high * 100) as real;
    assert low * 100 <= RoundHalfEven(x) <= high * 100;
  }
}
