/** Writing a catalogue entry into a zone's PEQ block, and clearing it again. */
module JRiverLoad {
  import opened Common
  import opened JRiverXml
  import opened JRiverDsp

  /** A catalogue filter with its numbers as they are printed; a shelf's `q` is the slope computed from q and gain. */
  datatype CatalogueFilter =
    | LowShelf(q: string, gain: string, freq: string, count: int)
    | HighShelf(q: string, gain: string, freq: string, count: int)
    | PeakingEQ(q: string, gain: string, freq: string)
    | Gain(gain: string)
    | Unknown(kind: string)

  datatype Entry = Entry(title: string, formattedTitle: string, filters: seq<CatalogueFilter>)

  function MakePeak(channels: string, f: CatalogueFilter): Vals
    requires f.PeakingEQ?
  {
    [("Enabled", "1"), ("Slope", "12"), ("Q", f.q), ("Type", "3"), ("Gain", f.gain), ("Frequency", f.freq),
        ("Channels", channels)]
  }

  function MakeShelf(channels: string, f: CatalogueFilter): Vals
    requires f.LowShelf? || f.HighShelf?
  {
    [("Enabled", "1"), ("Slope", "12"), ("Q", f.q), ("Type", if f.HighShelf? then "11" else "10"), ("Gain", f.gain),
     ("Frequency", f.freq), ("Channels", channels)]
  }

  function MakeGain(channels: string, f: CatalogueFilter): Vals
    requires f.Gain?
  {
    [("Enabled", "1"), ("Type", "4"), ("Gain", f.gain), ("Channels", channels)]
  }

  function MakeMeta(name: string, start: bool): Vals {
    [("Enabled", "1"), ("Type", META_TYPE), ("Text", (if start then START_MARK else END_MARK) + name)]
  }

  /** The filters one catalogue filter becomes: a shelf is repeated `count` times. */
  function Convert(f: CatalogueFilter, channels: string): Result<seq<Vals>, DspError> {
    match f
    case LowShelf(_, _, _, n) => Ok(seq(if n > 0 then n else 0, i => MakeShelf(channels, f)))
    case HighShelf(_, _, _, n) => Ok(seq(if n > 0 then n else 0, i => MakeShelf(channels, f)))
    case PeakingEQ(_, _, _) => Ok([MakePeak(channels, f)])
    case Gain(_) => Ok([MakeGain(channels, f)])
    case Unknown(_) => Err(UnknownFilter)
  }

  function ConvertAll(fs: seq<CatalogueFilter>, channels: string): Result<seq<seq<Vals>>, DspError> {
    if fs == [] then Ok([]) else
    match Convert(fs[0], channels)
    case Err(e) => Err(e)
    case Ok(first) =>
      match ConvertAll(fs[1..], channels)
      case Err(e) => Err(e)
      case Ok(rest) => Ok([first] + rest)
  }

  /** The groups of filters of an entry between its two marks. */
  function Marked(title: string, groups: seq<seq<Vals>>): seq<seq<Vals>> {
    [[MakeMeta(title, true)]] + groups + [[MakeMeta(title, false)]]
  }

  function PrintGroups(groups: seq<seq<Vals>>): seq<string> {
    seq(|groups|, i requires 0 <= i < |groups| => FiltsToXml(groups[i]))
  }

  /** text.count('<XMLPH version'). */
  function CountMarks(s: string): nat
    decreases |s|
  {
    if |s| < |MARK| then 0
    else if MARK <= s then 1 + CountMarks(s[|MARK|..])
    else CountMarks(s[1..])
  }

  function CountAll(xmls: seq<string>): nat {
    if xmls == [] then 0 else CountMarks(xmls[0]) + CountAll(xmls[1..])
  }

  /** include_filters_in_dsp with replace=False: the count token raised and the new filters at the end. */
  function Include(text: string, xmls: seq<string>): Result<string, DspError> {
    if xmls == [] then Ok(text) else
    var frags := if text == [] then ["(1:1)", "(2:0)"] else Fragments(text);
    if |frags| < 2 then Err(UnexpectedFormat) else
    FragmentsAreTokens(text);
    match ReadCount(frags[1])
    case None => Err(UnexpectedFormat)
    case Some(n) => Ok(Concat(frags[1 := Header(n + CountAll(xmls))]) + Concat(xmls))
  }

  /** Printed filters written over whatever BEQ a text holds. */
  function LoadXmls(xmls: seq<string>, text: string): Result<string, DspError> {
    match RemoveAll(text)
    case Err(x) => Err(x)
    case Ok(cleared) => Include(cleared, xmls)
  }

  /** What a load makes of the text of a PEQ block. */
  function Load(e: Entry, channels: string, text: string): Result<string, DspError> {
    match ConvertAll(e.filters, channels)
    case Err(x) => Err(x)
    case Ok(groups) => LoadXmls(PrintGroups(Marked(e.title, groups)), text)
  }

  method IncludeFilters(text: string, xmls: seq<string>) returns (r: Result<string, DspError>)
    ensures r == Include(text, xmls)
  {
    if xmls == [] { return Ok(text); }
    var frags := ["(1:1)", "(2:0)"];
    if text != [] {
      frags := SplitTokens(text);
      FragmentsAreTokens(text);
      if |frags| < 2 { return Err(UnexpectedFormat); }
    }
    var added := 0;
    for i := 0 to |xmls|
      invariant added + CountAll(xmls[i..]) == CountAll(xmls)
    {
      assert xmls[i..][1..] == xmls[i + 1..];
      added := added + CountMarks(xmls[i]);
    }
    var count := ReadCount(frags[1]);
    if count.None? { return Err(UnexpectedFormat); }
    frags := frags[1 := Header(count.value + added)];
    return Ok(Concat(frags) + Concat(xmls));
  }

  method ConvertFilters(fs: seq<CatalogueFilter>, channels: string) returns (r: Result<seq<seq<Vals>>, DspError>)
    ensures r == ConvertAll(fs, channels)
  {
    var i := |fs|;
    var groups: seq<seq<Vals>> := [];
    var error: Option<DspError> := None;
    while i > 0
      invariant 0 <= i <= |fs|
      invariant ConvertAll(fs[i..], channels) == if error.Some? then Err(error.value) else Ok(groups)
    {
      i := i - 1;
      assert fs[i..][1..] == fs[i + 1..];
      match Convert(fs[i], channels)
      case Err(e) => error := Some(e);
      case Ok(group) => groups := [group] + groups;
    }
    return if error.Some? then Err(error.value) else Ok(groups);
  }

  /** One zone: the text of the PEQ block its server holds, and the title ezbeq shows for it. */
  class Zone {
    var text: string
    var last: string

    constructor (text: string, last: string)
      ensures this.text == text && this.last == last
    {
      this.text, this.last := text, last;
    }

    method LoadFilter(e: Entry, channels: string) returns (r: Result<(), DspError>)
      modifies this
      ensures r.Ok? <==> Load(e, channels, old(text)).Ok?
      ensures r.Ok? ==> text == Load(e, channels, old(text)).value && last == e.formattedTitle
      ensures r.Err? ==> r.error == Load(e, channels, old(text)).error && text == old(text) && last == old(last)
    {
      var groups := ConvertFilters(e.filters, channels);
      if groups.Err? { return Err(groups.error); }
      var cleared := RemoveAllBeq(text);
      if cleared.Err? { return Err(cleared.error); }
      var config := IncludeFilters(cleared.value, PrintGroups(Marked(e.title, groups.value)));
      if config.Err? { return Err(config.error); }
      text, last := config.value, e.formattedTitle;
      return Ok(());
    }

    method ClearFilter() returns (r: Result<(), DspError>)
      modifies this
      ensures r.Ok? <==> RemoveAll(old(text)).Ok?
      ensures r.Ok? ==> text == RemoveAll(old(text)).value && last == "Empty"
      ensures r.Err? ==> r.error == RemoveAll(old(text)).error && text == old(text) && last == old(last)
    {
      var cleared := RemoveAllBeq(text);
      if cleared.Err? { return Err(cleared.error); }
      if cleared.value != text { text := cleared.value; }
      last := "Empty";
      return Ok(());
    }
  }
}
