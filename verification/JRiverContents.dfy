/** What a load writes into a PEQ text, read back token by token and value by value. */
module JRiverContents {
  import opened Common
  import opened Text
  import opened JRiverXml
  import opened JRiverDsp
  import opened JRiverLoad
  import opened JRiverTheorems
  import opened JRiverRoundTrip

  // ---- what is expected ----

  /** How often a catalogue filter is written: a shelf as often as its count says, anything else once. */
  function Times(f: CatalogueFilter): nat {
    if f.LowShelf? || f.HighShelf? then if f.count > 0 then f.count else 0 else 1
  }

  function Repeated(f: CatalogueFilter, n: nat): seq<CatalogueFilter> { seq(n, i => f) }

  /** The filters of an entry in order, each as often as it is written. */
  function Copies(fs: seq<CatalogueFilter>): seq<CatalogueFilter> {
    if fs == [] then [] else Repeated(fs[0], Times(fs[0])) + Copies(fs[1..])
  }

  /** A value that reads back as printed; an empty one as none. */
  predicate Holds(d: map<string, Option<string>>, key: string, value: string) {
    Get(d, key) == Some(if value == "" then None else Some(value))
  }

  /** The values of a filter in force on some channels. */
  predicate HoldsFilter(d: map<string, Option<string>>, f: CatalogueFilter, channels: string) {
    && Holds(d, "Enabled", "1") && Holds(d, "Channels", channels)
    && match f
       case LowShelf(q, gain, freq, _) =>
         Holds(d, "Type", "10") && Holds(d, "Q", q) && Holds(d, "Gain", gain) && Holds(d, "Frequency", freq)
         && Holds(d, "Slope", "12")
       case HighShelf(q, gain, freq, _) =>
         Holds(d, "Type", "11") && Holds(d, "Q", q) && Holds(d, "Gain", gain) && Holds(d, "Frequency", freq)
         && Holds(d, "Slope", "12")
       case PeakingEQ(q, gain, freq) =>
         Holds(d, "Type", "3") && Holds(d, "Q", q) && Holds(d, "Gain", gain) && Holds(d, "Frequency", freq)
         && Holds(d, "Slope", "12")
       case Gain(gain) => Holds(d, "Type", "4") && Holds(d, "Gain", gain)
       case Unknown(_) => false
  }

  /** A mark names the start or the end of a block. */
  predicate HoldsMark(d: map<string, Option<string>>, text: string) {
    Holds(d, "Enabled", "1") && Holds(d, "Type", "20") && Holds(d, "Text", text)
  }

  /** A token that reads back as a filter. */
  predicate ReadsFilter(token: string, f: CatalogueFilter, channels: string) {
    ParseFragment(token).Parsed? && HoldsFilter(ReadValues(ParseFragment(token).vals), f, channels)
  }

  predicate ReadsMark(token: string, text: string) {
    ParseFragment(token).Parsed? && HoldsMark(ReadValues(ParseFragment(token).vals), text)
  }

  // ---- the values of each kind of filter ----

  lemma {:induction false} ShortNames()
    ensures "Q" != "Type" && "Q" != "Gain" && "Type" != "Gain"
  {
    assert "Type"[0] != "Gain"[0];
  }

  lemma {:induction false} FilterNamesDiffer(vals: Vals)
    requires |vals| == 7 && vals[0].0 == "Enabled" && vals[1].0 == "Slope" && vals[2].0 == "Q" && vals[3].0 == "Type"
    requires vals[4].0 == "Gain" && vals[5].0 == "Frequency" && vals[6].0 == "Channels"
    ensures DistinctNames(vals)
  {
    ShortNames();
  }

  lemma {:induction false} ValueHeld(vals: Vals, i: nat, name: string, value: string)
    requires DistinctNames(vals) && i < |vals| && vals[i] == (name, value) && (name == "Enabled" ==> value == "1")
    ensures Holds(ReadValues(vals), name, value)
  {
    ValuesRead(vals, i);
    assert "1" != "0" by { assert "1"[0] != "0"[0]; }
  }

  lemma {:induction false} SevenValues(
      vals: Vals, q: string, kind: string, gain: string, freq: string, channels: string)
    requires vals == [("Enabled", "1"), ("Slope", "12"), ("Q", q), ("Type", kind), ("Gain", gain), ("Frequency", freq),
                      ("Channels", channels)]
    ensures
      var d := ReadValues(vals);
      && Holds(d, "Enabled", "1") && Holds(d, "Slope", "12") && Holds(d, "Q", q) && Holds(d, "Type", kind)
      && Holds(d, "Gain", gain) && Holds(d, "Frequency", freq) && Holds(d, "Channels", channels)
  {
    FilterNamesDiffer(vals);
    ValueHeld(vals, 0, "Enabled", "1");
    ValueHeld(vals, 1, "Slope", "12");
    ValueHeld(vals, 2, "Q", q);
    ValueHeld(vals, 3, "Type", kind);
    ValueHeld(vals, 4, "Gain", gain);
    ValueHeld(vals, 5, "Frequency", freq);
    ValueHeld(vals, 6, "Channels", channels);
  }

  lemma {:induction false} GainHeld(channels: string, f: CatalogueFilter)
    requires f.Gain?
    ensures HoldsFilter(ReadValues(MakeGain(channels, f)), f, channels)
  {
    var vals := MakeGain(channels, f);
    ShortNames();
    assert DistinctNames(vals);
    ValueHeld(vals, 0, "Enabled", "1");
    ValueHeld(vals, 1, "Type", "4");
    ValueHeld(vals, 2, "Gain", f.gain);
    ValueHeld(vals, 3, "Channels", channels);
  }

  lemma {:induction false} MarkHeld(title: string, start: bool)
    ensures HoldsMark(ReadValues(MakeMeta(title, start)), (if start then "***BEQ_START|" else "***BEQ_END|") + title)
  {
    var vals := MakeMeta(title, start);
    assert "Text"[1] != "Type"[1];
    assert DistinctNames(vals);
    ValueHeld(vals, 0, "Enabled", "1");
    ValueHeld(vals, 1, "Type", "20");
    ValueHeld(vals, 2, "Text", (if start then "***BEQ_START|" else "***BEQ_END|") + title);
  }

  /** Each of the filters a catalogue filter becomes has its values, and there are as many as it says. */
  lemma {:induction false} ConvertedHeld(f: CatalogueFilter, channels: string)
    requires Convert(f, channels).Ok?
    ensures |Convert(f, channels).value| == Times(f)
    ensures forall i :: 0 <= i < Times(f) ==> HoldsFilter(ReadValues(Convert(f, channels).value[i]), f, channels)
  {
    match f
    case LowShelf(q, gain, freq, _) => SevenValues(MakeShelf(channels, f), q, "10", gain, freq, channels);
    case HighShelf(q, gain, freq, _) => SevenValues(MakeShelf(channels, f), q, "11", gain, freq, channels);
    case PeakingEQ(q, gain, freq) => SevenValues(MakePeak(channels, f), q, "3", gain, freq, channels);
    case Gain(_) => GainHeld(channels, f);
  }

  // ---- a whole entry ----

  /** Values that stand, one for one, for some catalogue filters. */
  ghost predicate StandFor(vs: seq<Vals>, fs: seq<CatalogueFilter>, channels: string) {
    |vs| == |fs| && forall i :: 0 <= i < |vs| ==> HoldsFilter(ReadValues(vs[i]), fs[i], channels)
  }

  lemma {:induction false} StandTogether(
      a: seq<Vals>, b: seq<Vals>, fs: seq<CatalogueFilter>, gs: seq<CatalogueFilter>, channels: string)
    requires StandFor(a, fs, channels) && StandFor(b, gs, channels)
    ensures StandFor(a + b, fs + gs, channels)
  {
  }

  lemma {:induction false} ConvertedStand(fs: seq<CatalogueFilter>, channels: string)
    requires ConvertAll(fs, channels).Ok?
    ensures StandFor(Flatten(ConvertAll(fs, channels).value), Copies(fs), channels)
  {
    if fs != [] {
      var first, rest := Convert(fs[0], channels).value, ConvertAll(fs[1..], channels).value;
      ConvertedHeld(fs[0], channels);
      ConvertedStand(fs[1..], channels);
      assert ([first] + rest)[1..] == rest;
      StandTogether(first, Flatten(rest), Repeated(fs[0], Times(fs[0])), Copies(fs[1..]), channels);
    }
  }

  /** An entry can be written exactly if the kind of each of its filters is known. */
  lemma {:induction false} ConvertsIff(fs: seq<CatalogueFilter>, channels: string)
    ensures ConvertAll(fs, channels).Ok? <==> forall i :: 0 <= i < |fs| ==> !fs[i].Unknown?
  {
    if fs != [] {
      ConvertsIff(fs[1..], channels);
      assert fs == [fs[0]] + fs[1..];
    }
  }

  lemma {:induction false} TokenReads(v: Vals, f: CatalogueFilter, channels: string)
    requires Printable(v) && v != [] && HoldsFilter(ReadValues(v), f, channels)
    ensures ReadsFilter(FiltToXml(v), f, channels)
  {
    PrintedFilterParses(v);
  }

  lemma {:induction false} MarkReads(title: string, start: bool)
    requires PrintableText(title)
    ensures ReadsMark(FiltToXml(MakeMeta(title, start)), (if start then "***BEQ_START|" else "***BEQ_END|") + title)
  {
    MetaMarks(title, start);
    PrintedFilterParses(MakeMeta(title, start));
    MarkHeld(title, start);
  }

  /** The tokens of an entry's block: a START mark with its title, each filter as often as it is written, with its own
      type, numbers and channels, and an END mark. */
  predicate ReadsEntry(tokens: seq<string>, e: Entry, channels: string) {
    var copies := Copies(e.filters);
    && |tokens| == |copies| + 2
    && ReadsMark(tokens[0], "***BEQ_START|" + e.title) && ReadsMark(tokens[|copies| + 1], "***BEQ_END|" + e.title)
    && forall i :: 0 <= i < |copies| ==> ReadsFilter(tokens[i + 1], copies[i], channels)
  }

  lemma {:induction false} BlockTexts(title: string, groups: seq<seq<Vals>>, vs: seq<Vals>, texts: seq<string>)
    requires vs == Flatten(groups) && texts == Texts(Block(title, groups))
    ensures |texts| == |vs| + 2
    ensures texts[0] == FiltToXml(MakeMeta(title, true)) && texts[|vs| + 1] == FiltToXml(MakeMeta(title, false))
    ensures forall i :: 0 <= i < |vs| ==> texts[i + 1] == FiltToXml(vs[i])
  {
    BlockIs(title, groups, MakeMeta(title, true), vs, MakeMeta(title, false));
  }

  lemma {:induction false} FiltersRead(vs: seq<Vals>, fs: seq<CatalogueFilter>, channels: string, i: nat)
    requires PlainFilters(vs) && StandFor(vs, fs, channels) && i < |vs|
    ensures ReadsFilter(FiltToXml(vs[i]), fs[i], channels)
  {
    TokenReads(vs[i], fs[i], channels);
  }

  lemma {:induction false} EntryFilters(e: Entry, channels: string) returns (vs: seq<Vals>)
    requires Loadable(e, channels)
    ensures vs == Flatten(ConvertAll(e.filters, channels).value)
    ensures PlainFilters(vs) && StandFor(vs, Copies(e.filters), channels)
  {
    vs := Flatten(ConvertAll(e.filters, channels).value);
    ConvertedStand(e.filters, channels);
    AllConvertedArePlain(e.filters, channels);
    FlattenPlain(ConvertAll(e.filters, channels).value);
  }

  lemma {:induction false} BlockReads(e: Entry, channels: string)
    requires Loadable(e, channels)
    ensures ReadsEntry(Texts(EntryBlock(e, channels)), e, channels)
  {
    var vs := EntryFilters(e, channels);
    var texts := Texts(EntryBlock(e, channels));
    BlockTexts(e.title, ConvertAll(e.filters, channels).value, vs, texts);
    MarkReads(e.title, true);
    MarkReads(e.title, false);
    forall i | 0 <= i < |vs|
      ensures ReadsFilter(texts[i + 1], Copies(e.filters)[i], channels)
    {
      FiltersRead(vs, Copies(e.filters), channels, i);
    }
  }

  /** After a load the tokens of the text are its first, its count, the user's in order, and then the entry's. */
  lemma {:induction false} LoadWritesEntry(p: Peq, e: Entry, channels: string)
    requires p.Valid() && Loadable(e, channels)
    ensures Load(e, channels, p.Text()).Ok?
    ensures
      var tokens, start := Fragments(Load(e, channels, p.Text()).value), 2 + |p.User()|;
      && start <= |tokens| && tokens[0] == p.First() && tokens[2..start] == Texts(p.User())
      && ReadsEntry(tokens[start..], e, channels)
  {
    LoadKeepsUserFilters(p, e, channels);
    BlockReads(e, channels);
    LoadedTokens(p, EntryBlock(e, channels));
  }

  lemma {:induction false} LoadedTokens(p: Peq, block: seq<Filter>)
    requires Loaded(p, block).Valid()
    ensures
      var tokens, start := Fragments(Loaded(p, block).Text()), 2 + |p.User()|;
      && start <= |tokens| && tokens[0] == p.First() && tokens[2..start] == Texts(p.User())
          && tokens[start..] == Texts(block)
  {
    var q := Loaded(p, block);
    MakeFragments(q.first, q.count, q.filters);
    TextsAppend(p.User(), block);
    TokensSplit([q.first, q.count], Texts(p.User()), Texts(block));
  }

  lemma {:induction false} TokensSplit(head: seq<string>, user: seq<string>, block: seq<string>)
    requires |head| == 2
    ensures
      var tokens, start := head + (user + block), 2 + |user|;
      start <= |tokens| && tokens[0] == head[0] && tokens[2..start] == user && tokens[start..] == block
  {
  }

  // ---- the text of a token ----

  /** One line for each value. */
  function ItemLines(vals: Vals): string {
    if vals == [] then ""
    else "<Item Name=\"" + vals[0].0 + "\">" + vals[0].1 + "</Item>\n" + ItemLines(vals[1..])
  }

  function Element(vals: Vals): string { "<XMLPH version=\"1.1\">\n" + ItemLines(vals) + "</XMLPH>" }

  /** No name and no value holds a line feed. */
  predicate OneLineEach(vals: Vals) {
    forall i :: 0 <= i < |vals| ==> Free(vals[i].0, '\n') && Free(vals[i].1, '\n')
  }

  lemma {:induction false} ItemLineIs(kv: (string, string))
    ensures ItemXml(kv) == "<Item Name=\"" + kv.0 + "\">" + kv.1 + "</Item>"
    ensures Free(kv.0, '\n') && Free(kv.1, '\n') ==> Free(ItemXml(kv), '\n')
  {
  }

  lemma {:induction false} JoinedLines(vals: Vals)
    requires vals != []
    ensures Join(Items(vals), "\n") + "\n" == ItemLines(vals)
  {
    ItemLineIs(vals[0]);
    assert "</Item>" + "\n" == "</Item>\n";
    if |vals| == 1 {
      assert Items(vals[1..]) == [] && ItemLines(vals[1..]) == "";
    } else {
      JoinedLines(vals[1..]);
      ItemsLength(vals);
      assert Items(vals)[1..] == Items(vals[1..]);
    }
  }

  lemma {:induction false} LinesAreFree(vals: Vals)
    requires OneLineEach(vals)
    ensures Free(Concat(Items(vals)), '\n')
  {
    if vals != [] {
      ItemLineIs(vals[0]);
      LinesAreFree(vals[1..]);
      assert Items(vals)[1..] == Items(vals[1..]);
    }
  }

  /** A filter is printed as an element of one line a value, behind the number of characters it has once its line feeds
      are sent as two each. */
  lemma {:induction false} TokenIs(vals: Vals)
    requires vals != [] && OneLineEach(vals)
    ensures FiltToXml(vals) == "(" + Decimal(|CrLf(Element(vals))|) + ":" + Element(vals) + ")"
  {
    JoinedLines(vals);
    LinesAreFree(vals);
    HeaderIsLengthIff(vals);
    assert Content(vals) == Element(vals);
  }

  /** The count token is the count behind the number of its digits. */
  lemma {:induction false} CountTokenIs(n: nat)
    ensures
      var h := Header(n);
      && |h| >= 2 && h[0] == '(' && h[|h| - 1] == ')'
      && var pieces := Split(h[1..|h| - 1], ':');
         |pieces| == 2 && ReadNat(pieces[0]) == |pieces[1]| && ReadNat(pieces[1]) == n
  {
    var l, d := Decimal(|Decimal(n)|), Decimal(n);
    ReadDecimal(|Decimal(n)|);
    ReadDecimal(n);
    HeaderOpens(l, d);
    SplitPiece(l, d, ':');
    SplitFree(d, ':');
  }
}
