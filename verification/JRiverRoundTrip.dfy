/** What a load leaves in a PEQ text, and that a clear after it, or another load, takes it away again. */
module JRiverRoundTrip {
  import opened Common
  import opened Text
  import opened JRiverXml
  import opened JRiverDsp
  import opened JRiverLoad
  import opened JRiverTheorems

  // ---- the filters an entry prints ----

  predicate PrintableEntry(e: Entry, channels: string) {
    && PrintableText(e.title) && PrintableText(channels)
    && (forall i :: 0 <= i < |e.filters| ==> PrintableFilter(e.filters[i]))
  }

  predicate PrintableFilter(f: CatalogueFilter) {
    match f
    case LowShelf(q, g, h, _) => PrintableText(q) && PrintableText(g) && PrintableText(h)
    case HighShelf(q, g, h, _) => PrintableText(q) && PrintableText(g) && PrintableText(h)
    case PeakingEQ(q, g, h) => PrintableText(q) && PrintableText(g) && PrintableText(h)
    case Gain(g) => PrintableText(g)
    case Unknown(_) => true
  }

  /** The filter a token of these values reads back as. */
  function FilterOf(v: Vals): Filter { Filter(FiltToXml(v), KindOf(v)) }

  function FiltersOf(vs: seq<Vals>): seq<Filter> {
    seq(|vs|, i requires 0 <= i < |vs| => FilterOf(vs[i]))
  }

  /** The block a load appends. */
  function Block(title: string, groups: seq<seq<Vals>>): seq<Filter> { FiltersOf(Flatten(Marked(title, groups))) }

  lemma {:induction false} ShortNamesPrint()
    ensures PrintableText("Q") && PrintableText("Type") && PrintableText("Gain") && PrintableText("Text")
  {
  }

  lemma {:induction false} FirstNamesPrint()
    ensures PrintableText("Enabled") && PrintableText("Slope")
  {
  }

  lemma {:induction false} FrequencyPrints()
    ensures PrintableText("Frequency")
  {
  }

  lemma {:induction false} ChannelsPrints()
    ensures PrintableText("Channels")
  {
  }

  lemma {:induction false} FixedValuesPrint()
    ensures PrintableText("1") && PrintableText("12") && PrintableText("3") && PrintableText("4")
    ensures PrintableText("10") && PrintableText("11") && PrintableText(META_TYPE)
  {
  }

  lemma {:induction false} LookupNames()
    ensures "Text" != "Type" && "Channels" != "Type" && "Frequency" != "Type" && "Gain" != "Type"
    ensures "3" != META_TYPE && "10" != META_TYPE && "11" != META_TYPE && "4" != META_TYPE
  {
    assert "Text"[1] != "Type"[1];
    assert "10"[0] != META_TYPE[0] && "11"[0] != META_TYPE[0];
  }

  lemma {:induction false} LookupLast(vals: Vals, k: string, v: string, name: string)
    ensures Lookup(vals + [(k, v)], name) == if k == name then Some(v) else Lookup(vals, name)
  {
    TakePrefix(vals, [(k, v)]);
  }

  lemma {:induction false} PeakIsPlain(channels: string, f: CatalogueFilter)
    requires f.PeakingEQ? && PrintableText(channels) && PrintableFilter(f)
    ensures var v := MakePeak(channels, f); Printable(v) && v != [] && KindOf(v) == Plain
  {
    ShortNamesPrint();
    FirstNamesPrint();
    FrequencyPrints();
    ChannelsPrints();
    FixedValuesPrint();
    LookupNames();
    var front := [("Enabled", "1"), ("Slope", "12"), ("Q", f.q)];
    var v3 := front + [("Type", "3")];
    LookupLast(front, "Type", "3", "Type");
    LookupLast(v3, "Gain", f.gain, "Type");
    LookupLast(v3 + [("Gain", f.gain)], "Frequency", f.freq, "Type");
    LookupLast(v3 + [("Gain", f.gain)] + [("Frequency", f.freq)], "Channels", channels, "Type");
    assert MakePeak(channels, f) == v3 + [("Gain", f.gain)] + [("Frequency", f.freq)] + [("Channels", channels)];
  }

  lemma {:induction false} ShelfIsPlain(channels: string, f: CatalogueFilter)
    requires (f.LowShelf? || f.HighShelf?) && PrintableText(channels) && PrintableFilter(f)
    ensures var v := MakeShelf(channels, f); Printable(v) && v != [] && KindOf(v) == Plain
  {
    ShortNamesPrint();
    FirstNamesPrint();
    FrequencyPrints();
    ChannelsPrints();
    FixedValuesPrint();
    LookupNames();
    var t := if f.HighShelf? then "11" else "10";
    var front := [("Enabled", "1"), ("Slope", "12"), ("Q", f.q)];
    var v3 := front + [("Type", t)];
    LookupLast(front, "Type", t, "Type");
    LookupLast(v3, "Gain", f.gain, "Type");
    LookupLast(v3 + [("Gain", f.gain)], "Frequency", f.freq, "Type");
    LookupLast(v3 + [("Gain", f.gain)] + [("Frequency", f.freq)], "Channels", channels, "Type");
    assert MakeShelf(channels, f) == v3 + [("Gain", f.gain)] + [("Frequency", f.freq)] + [("Channels", channels)];
  }

  lemma {:induction false} GainIsPlain(channels: string, f: CatalogueFilter)
    requires f.Gain? && PrintableText(channels) && PrintableFilter(f)
    ensures var v := MakeGain(channels, f); Printable(v) && v != [] && KindOf(v) == Plain
  {
    ShortNamesPrint();
    FirstNamesPrint();
    FrequencyPrints();
    ChannelsPrints();
    FixedValuesPrint();
    LookupNames();
    var v2: Vals := [("Enabled", "1")] + [("Type", "4")];
    LookupLast([("Enabled", "1")], "Type", "4", "Type");
    LookupLast(v2, "Gain", f.gain, "Type");
    LookupLast(v2 + [("Gain", f.gain)], "Channels", channels, "Type");
    assert MakeGain(channels, f) == v2 + [("Gain", f.gain)] + [("Channels", channels)];
  }

  lemma {:induction false} MarksDiffer(title: string)
    ensures !(START_MARK <= END_MARK + title)
  {
    assert START_MARK[7] == 'S' && (END_MARK + title)[7] == 'E';
  }

  lemma {:induction false} MarkPrints()
    ensures PrintableText(START_MARK) && PrintableText(END_MARK)
  {
  }

  lemma {:induction false} MetaMarks(title: string, start: bool)
    requires PrintableText(title)
    ensures
      var v := MakeMeta(title, start);
      Printable(v) && v != [] && KindOf(v) == if start then Start(title) else End(title)
  {
    var mark := if start then START_MARK else END_MARK;
    ShortNamesPrint();
    FirstNamesPrint();
    FrequencyPrints();
    ChannelsPrints();
    FixedValuesPrint();
    LookupNames();
    MarkPrints();
    DropPrefix(mark, title);
    MarksDiffer(title);
    var front: Vals := [("Enabled", "1")] + [("Type", META_TYPE)];
    LookupLast([("Enabled", "1")], "Type", META_TYPE, "Type");
    LookupLast(front, "Text", mark + title, "Type");
    LookupLast(front, "Text", mark + title, "Text");
    assert MakeMeta(title, start) == front + [("Text", mark + title)];
  }

  ghost predicate PlainFilters(vs: seq<Vals>) {
    forall i :: 0 <= i < |vs| ==> Printable(vs[i]) && vs[i] != [] && KindOf(vs[i]) == Plain
  }

  lemma {:induction false} ConvertedArePlain(f: CatalogueFilter, channels: string)
    requires PrintableFilter(f) && PrintableText(channels) && Convert(f, channels).Ok?
    ensures PlainFilters(Convert(f, channels).value)
  {
    match f
    case LowShelf(_, _, _, _) => ShelfIsPlain(channels, f);
    case HighShelf(_, _, _, _) => ShelfIsPlain(channels, f);
    case PeakingEQ(_, _, _) => PeakIsPlain(channels, f);
    case Gain(_) => GainIsPlain(channels, f);
  }

  ghost predicate PlainGroups(groups: seq<seq<Vals>>) {
    forall i :: 0 <= i < |groups| ==> PlainFilters(groups[i])
  }

  lemma {:induction false} AllConvertedArePlain(fs: seq<CatalogueFilter>, channels: string)
    requires (forall i :: 0 <= i < |fs| ==> PrintableFilter(fs[i])) && PrintableText(channels)
        && ConvertAll(fs, channels).Ok?
    ensures PlainGroups(ConvertAll(fs, channels).value)
  {
    if fs != [] {
      ConvertedArePlain(fs[0], channels);
      AllConvertedArePlain(fs[1..], channels);
    }
  }

  lemma {:induction false} FlattenPlain(groups: seq<seq<Vals>>)
    requires PlainGroups(groups)
    ensures PlainFilters(Flatten(groups))
  {
    if groups != [] {
      FlattenPlain(groups[1..]);
      assert PlainFilters(groups[0]);
    }
  }

  lemma {:induction false} FlattenAppend(a: seq<seq<Vals>>, b: seq<seq<Vals>>)
    ensures Flatten(a + b) == Flatten(a) + Flatten(b)
  {
    if a == [] {
      EmptyFirst(b);
      EmptyFirst(Flatten(b));
    } else {
      assert (a + b)[1..] == a[1..] + b;
      FlattenAppend(a[1..], b);
      Regroup(a[0], Flatten(a[1..]), Flatten(b));
    }
  }

  lemma {:induction false} OneGroup(v: Vals)
    ensures Flatten([[v]]) == [v]
  {
    assert [[v]][1..] == [];
    EmptyLast([v]);
  }

  lemma {:induction false} FlattenMarked(title: string, groups: seq<seq<Vals>>)
    ensures Flatten(Marked(title, groups)) == [MakeMeta(title, true)] + Flatten(groups) + [MakeMeta(title, false)]
  {
    FlattenAppend([[MakeMeta(title, true)]] + groups, [[MakeMeta(title, false)]]);
    FlattenAppend([[MakeMeta(title, true)]], groups);
    OneGroup(MakeMeta(title, true));
    OneGroup(MakeMeta(title, false));
  }

  // ---- the block ----

  lemma {:induction false} PrintedIsToken(v: Vals)
    requires Printable(v) && v != []
    ensures IsToken(FiltToXml(v))
  {
    ReadDecimal(TotalLength(v));
    ContentIsLines(v);
    LinesAreFree(v);
    FreeMarks();
    var d, c := Decimal(TotalLength(v)), Content(v);
    FreeAppend(MARK, VERSION + Lines(v), ')');
    FreeAppend(VERSION, Lines(v), ')');
    ClosedOnce(d, c);
  }

  lemma {:induction false} ClosedOnce(d: string, c: string)
    requires IsDigits(d) && Free(c, ')')
    ensures IsToken("(" + (d + (":" + (c + ")"))))
  {
    var t := "(" + (d + (":" + (c + ")")));
    assert t[..|t| - 1] == "(" + (d + (":" + c));
  }

  lemma {:induction false} FreeAppend(a: string, b: string, c: char)
    ensures Free(a + b, c) <==> Free(a, c) && Free(b, c)
  {
  }

  lemma {:induction false} FreeMarks()
    ensures Free(MARK, ')') && Free(VERSION, ')') && Free(SUFFIX, ')') && Free(NEWLINE, ')')
    ensures Free(ITEM_OPEN, ')') && Free(ITEM_MID, ')') && Free(ITEM_CLOSE, ')')
  {
  }

  lemma {:induction false} ItemIsFree(kv: (string, string))
    requires PrintableText(kv.0) && PrintableText(kv.1)
    ensures Free(ItemXml(kv), ')')
  {
    FreeMarks();
    FreeAppend(kv.1, ITEM_CLOSE, ')');
    FreeAppend(ITEM_MID, kv.1 + ITEM_CLOSE, ')');
    FreeAppend(kv.0, ITEM_MID + (kv.1 + ITEM_CLOSE), ')');
    FreeAppend(ITEM_OPEN, kv.0 + (ITEM_MID + (kv.1 + ITEM_CLOSE)), ')');
  }

  lemma {:induction false} LinesAreFree(v: Vals)
    requires Printable(v)
    ensures Free(Lines(v), ')')
  {
    FreeMarks();
    if v == [] {
      FreeAppend(NEWLINE, SUFFIX, ')');
    } else {
      LinesAreFree(v[1..]);
      ItemIsFree(v[0]);
      FreeAppend(ItemXml(v[0]), Lines(v[1..]), ')');
      FreeAppend(NEWLINE, ItemXml(v[0]) + Lines(v[1..]), ')');
    }
  }

  lemma {:induction false} PrintedIsGenuine(v: Vals)
    requires Printable(v) && v != [] && KindOf(v) != Crash
    ensures Genuine(FilterOf(v))
  {
    PrintedIsToken(v);
    PrintedFilterParses(v);
  }

  lemma {:induction false} FiltersOfAppend(a: seq<Vals>, b: seq<Vals>)
    ensures FiltersOf(a + b) == FiltersOf(a) + FiltersOf(b)
  {
  }

  lemma {:induction false} PlainAreGenuine(vs: seq<Vals>)
    requires PlainFilters(vs)
    ensures AllGenuine(FiltersOf(vs)) && forall i :: 0 <= i < |vs| ==> !Marks(FiltersOf(vs)[i])
  {
    forall i | 0 <= i < |vs|
      ensures Genuine(FiltersOf(vs)[i])
    {
      PrintedIsGenuine(vs[i]);
    }
  }

  lemma {:induction false} BlockIs(title: string, groups: seq<seq<Vals>>, first: Vals, mid: seq<Vals>, last: Vals)
    requires first == MakeMeta(title, true) && last == MakeMeta(title, false) && mid == Flatten(groups)
    ensures Block(title, groups) == [FilterOf(first)] + FiltersOf(mid) + [FilterOf(last)]
  {
    FlattenMarked(title, groups);
    FiltersOfAppend([first] + mid, [last]);
    FiltersOfAppend([first], mid);
  }

  lemma {:induction false} MetaIsGenuine(title: string, start: bool) returns (v: Vals, f: Filter)
    requires PrintableText(title)
    ensures v == MakeMeta(title, start) && f == FilterOf(v) && Genuine(f) && f.kind == if start then Start(title)
        else End(title)
  {
    v, f := MakeMeta(title, start), FilterOf(MakeMeta(title, start));
    MetaMarks(title, start);
    PrintedIsGenuine(v);
  }

  /** A block is a START, filters that are no marks, and an END of the same name. */
  lemma {:induction false} BlockParts(
      title: string, groups: seq<seq<Vals>>) returns (open: Filter, mid: seq<Filter>, close: Filter)
    requires PlainGroups(groups) && PrintableText(title)
    ensures Block(title, groups) == [open] + mid + [close]
    ensures Genuine(open) && Genuine(close) && AllGenuine(mid)
    ensures open.kind == Start(title) && close.kind == End(title) && forall i :: 0 <= i < |mid| ==> !Marks(mid[i])
  {
    var first, last;
    first, open := MetaIsGenuine(title, true);
    last, close := MetaIsGenuine(title, false);
    mid := FiltersOf(Flatten(groups));
    FlattenPlain(groups);
    PlainAreGenuine(Flatten(groups));
    BlockIs(title, groups, first, Flatten(groups), last);
  }

  lemma {:induction false} WrappedIsBalanced(open: Filter, mid: seq<Filter>, close: Filter, name: string)
    requires open.kind == Start(name) && close.kind == End(name) && forall i :: 0 <= i < |mid| ==> !Marks(mid[i])
    ensures var b := [open] + mid + [close]; Balanced(b, None) && Kept(b, false) == [] && FirstMark(b) < |b|
  {
    var b, tail := [open] + mid + [close], mid + [close];
    assert b[1..] == tail && b[0] == open;
    SkipPlain(tail, |mid|, Some(name));
    DropPrefix(mid, [close]);
    assert [close][1..] == [];
  }

  lemma {:induction false} WrappedIsGenuine(open: Filter, mid: seq<Filter>, close: Filter)
    requires Genuine(open) && AllGenuine(mid) && Genuine(close)
    ensures AllGenuine([open] + mid + [close])
  {
    GenuineAppend([open], mid);
    GenuineAppend([open] + mid, [close]);
  }

  /** An entry's block is balanced by itself, with everything in it inside. */
  lemma {:induction false} BlockStands(title: string, groups: seq<seq<Vals>>)
    requires PlainGroups(groups) && PrintableText(title)
    ensures IsBlock(Block(title, groups))
  {
    var open, mid, close := BlockParts(title, groups);
    WrappedIsBalanced(open, mid, close, title);
    WrappedIsGenuine(open, mid, close);
  }

  lemma {:induction false} MarkedIsPrintable(title: string, groups: seq<seq<Vals>>)
    requires PlainGroups(groups) && PrintableText(title)
    ensures PrintableGroups(Marked(title, groups))
  {
    MetaMarks(title, true);
    MetaMarks(title, false);
    var m := Marked(title, groups);
    forall i | 0 <= i < |m|
      ensures PrintableFilters(m[i])
    {
      if 0 < i < |m| - 1 { assert m[i] == groups[i - 1] && PlainFilters(groups[i - 1]); }
    }
  }

  // ---- loads ----

  lemma {:induction false} TextsOfBlock(vs: seq<Vals>)
    ensures Texts(FiltersOf(vs)) == Tokens(vs)
  {
  }

  lemma {:induction false} TextsAppend(a: seq<Filter>, b: seq<Filter>)
    ensures Texts(a + b) == Texts(a) + Texts(b)
  {
  }

  /** One balanced block. */
  ghost predicate IsBlock(block: seq<Filter>) {
    AllGenuine(block) && Balanced(block, None) && Kept(block, false) == [] && FirstMark(block) < |block|
  }

  /** Printed pieces that add up to one balanced block. */
  ghost predicate Prints(xmls: seq<string>, block: seq<Filter>) {
    xmls != [] && Concat(xmls) == Concat(Texts(block)) && CountAll(xmls) == |block| && IsBlock(block)
  }

  lemma {:induction false} BlockPrints(title: string, groups: seq<seq<Vals>>)
    requires PlainGroups(groups) && PrintableText(title)
    ensures Prints(PrintGroups(Marked(title, groups)), Block(title, groups))
  {
    MarkedIsPrintable(title, groups);
    GroupsPrint(Marked(title, groups));
    TextsOfBlock(Flatten(Marked(title, groups)));
    BlockStands(title, groups);
  }

  lemma {:induction false} MakeThen(first: string, header: string, fs: seq<Filter>, block: seq<Filter>)
    ensures Make(first, header, fs) + Concat(Texts(block)) == Make(first, header, fs + block)
  {
    TextsAppend(fs, block);
    ConcatAppend([first, header] + Texts(fs), Texts(block));
    Regroup([first, header], Texts(fs), Texts(block));
  }

  lemma {:induction false} SecondReplaced(first: string, second: string, rest: seq<string>, other: string)
    ensures ([first, second] + rest)[1 := other] == [first, other] + rest
  {
  }

  /** Adding an entry to a text: the count goes up by the filters printed, which follow all the others. */
  lemma {:induction false} IncludeAppends(
      first: string, count: string, n: nat, user: seq<Filter>, xmls: seq<string>, block: seq<Filter>,
                       total: nat, fs: seq<Filter>)
    requires IsToken(first) && IsToken(count) && ReadCount(count) == Some(n) && AllGenuine(user) && Prints(xmls, block)
    requires total == n + |block| && fs == user + block
    ensures Include(Make(first, count, user), xmls) == Ok(Make(first, Header(total), fs))
  {
    MakeFragments(first, count, user);
    var header := Header(total);
    SecondReplaced(first, count, Texts(user), header);
    MakeThen(first, header, user, block);
  }

  lemma {:induction false} EmptyStart()
    ensures IsToken("(1:1)") && IsToken("(2:0)") && ReadCount("(2:0)") == Some(0)
  {
    var t := "(2:0)";
    assert t[1..|t| - 1] == "2" + [':'] + "0";
    SplitPiece("2", "0", ':');
    SplitFree("0", ':');
    assert ReadNat("0") == 0 by { assert "0"[..0] == []; }
  }

  /** Adding an entry to an empty text starts it with the two tokens of an empty block. */
  lemma {:induction false} IncludeStarts(xmls: seq<string>, block: seq<Filter>)
    requires Prints(xmls, block)
    ensures Include([], xmls) == Ok(Make("(1:1)", Header(|block|), block))
  {
    EmptyStart();
    var header := Header(|block|);
    assert ["(1:1)", "(2:0)"][1 := header] == ["(1:1)", header] + Texts([]);
    MakeThen("(1:1)", header, [], block);
    EmptyFirst(block);
  }

  /** A PEQ text as JRiver keeps it: nothing at all, or a first token, a count and filters whose blocks are balanced. */
  datatype Peq = Nothing | Peq(first: string, count: string, n: nat, filters: seq<Filter>) {
    predicate Valid() {
      Peq? ==>
          IsToken(first) && IsToken(count) && ReadCount(count) == Some(n) && AllGenuine(filters)
          && Balanced(filters, None)
    }

    function Text(): string { if Nothing? then [] else Make(first, count, filters) }

    function First(): string { if Nothing? then "(1:1)" else first }

    /** The filters outside every block. */
    function User(): seq<Filter> { if Nothing? then [] else Kept(filters, false) }

    /** The count once every block is removed: corrected if there was one, otherwise whatever it said. */
    function CountCleared(): nat {
      if Nothing? then 0 else if FirstMark(filters) < |filters| then |User()| else n
    }
  }

  /** What removing all BEQ leaves. */
  lemma {:induction false} ClearKeepsUserFilters(p: Peq)
    requires p.Valid()
    ensures RemoveAll(p.Text()) ==
            Ok(if p.Nothing? then []
               else Make(p.first, if FirstMark(p.filters) < |p.filters| then Header(|p.User()|) else p.count, p.User()))
  {
    if p.Peq? { AllRemoved(p.first, p.count, p.filters); }
  }

  /** The count token of a cleared text. */
  lemma {:induction false} ClearedCount(p: Peq) returns (count: string)
    requires p.Valid() && p.Peq?
    ensures IsToken(count) && ReadCount(count) == Some(p.CountCleared()) && AllGenuine(p.User())
    ensures RemoveAll(p.Text()) == Ok(Make(p.first, count, p.User()))
  {
    ClearKeepsUserFilters(p);
    KeptIsGenuine(p.filters);
    HeaderReads(|p.User()|);
    count := if FirstMark(p.filters) < |p.filters| then Header(|p.User()|) else p.count;
  }

  lemma {:induction false} LoadIntoNothing(xmls: seq<string>, block: seq<Filter>)
    requires Prints(xmls, block)
    ensures LoadXmls(xmls, []) == Ok(Make("(1:1)", Header(|block|), block))
  {
    ClearKeepsUserFilters(Nothing);
    IncludeStarts(xmls, block);
  }

  lemma {:induction false} LoadIntoCleared(text: string, cleared: string, xmls: seq<string>, loaded: string)
    requires RemoveAll(text) == Ok(cleared) && Include(cleared, xmls) == Ok(loaded)
    ensures LoadXmls(xmls, text) == Ok(loaded)
  {
  }

  /** The PEQ after a load: the user's filters in order, then the entry's block, behind a count raised by its length. */
  function Loaded(p: Peq, block: seq<Filter>): Peq {
    var n := p.CountCleared() + |block|;
    Peq(p.First(), Header(n), n, p.User() + block)
  }

  lemma {:induction false} LoadedText(p: Peq, block: seq<Filter>, first: string, total: nat, fs: seq<Filter>)
    requires first == p.First() && total == p.CountCleared() + |block| && fs == p.User() + block
    ensures Loaded(p, block).Text() == Make(first, Header(total), fs)
  {
  }

  lemma {:induction false} LoadIntoFilters(
      text: string, first: string, count: string, n: nat, user: seq<Filter>, xmls: seq<string>, block: seq<Filter>,
                        total: nat, fs: seq<Filter>)
    requires IsToken(first) && IsToken(count) && ReadCount(count) == Some(n) && AllGenuine(user) && Prints(xmls, block)
    requires RemoveAll(text) == Ok(Make(first, count, user)) && total == n + |block| && fs == user + block
    ensures LoadXmls(xmls, text) == Ok(Make(first, Header(total), fs))
  {
    var cleared, loaded := Make(first, count, user), Make(first, Header(total), fs);
    IncludeAppends(first, count, n, user, xmls, block, total, fs);
    LoadIntoCleared(text, cleared, xmls, loaded);
  }

  /** A text of filters, and what is left of it once cleared. */
  lemma {:induction false} ClearedParts(
      p: Peq) returns (text: string, first: string, count: string, n: nat, user: seq<Filter>)
    requires p.Valid() && p.Peq?
    ensures text == p.Text() && first == p.First() && n == p.CountCleared() && user == p.User()
    ensures IsToken(first) && IsToken(count) && ReadCount(count) == Some(n) && AllGenuine(user)
    ensures RemoveAll(text) == Ok(Make(first, count, user))
  {
    count := ClearedCount(p);
    text, first, n, user := p.Text(), p.first, p.CountCleared(), p.User();
  }

  lemma {:induction false} LoadIntoPeq(p: Peq, xmls: seq<string>, block: seq<Filter>)
    returns (text: string, first: string, total: nat, fs: seq<Filter>, loaded: string)
    requires p.Valid() && p.Peq? && Prints(xmls, block)
    ensures text == p.Text() && first == p.First() && total == p.CountCleared() + |block| && fs == p.User() + block
    ensures LoadXmls(xmls, text) == Ok(loaded) && loaded == Make(first, Header(total), fs)
  {
    var count, n, user;
    text, first, count, n, user := ClearedParts(p);
    total, fs := n + |block|, user + block;
    LoadIntoFilters(text, first, count, n, user, xmls, block, total, fs);
    loaded := Make(first, Header(total), fs);
  }

  lemma {:induction false} LoadAppendsBlock(p: Peq, xmls: seq<string>, block: seq<Filter>)
    requires p.Valid() && Prints(xmls, block)
    ensures LoadXmls(xmls, p.Text()) == Ok(Loaded(p, block).Text())
  {
    if p.Nothing? {
      LoadIntoNothing(xmls, block);
      assert p.User() + block == block by { EmptyFirst(block); }
      LoadedText(p, block, p.First(), |block|, block);
    } else {
      var text, first, total, fs, loaded := LoadIntoPeq(p, xmls, block);
      LoadedText(p, block, first, total, fs);
    }
  }

  lemma {:induction false} GenuineAppend(a: seq<Filter>, b: seq<Filter>)
    requires AllGenuine(a) && AllGenuine(b)
    ensures AllGenuine(a + b)
  {
    forall i | 0 <= i < |a + b|
      ensures Genuine((a + b)[i])
    {
      assert (a + b)[i] == if i < |a| then a[i] else b[i - |a|];
    }
  }

  lemma {:induction false} UserHasNoMark(p: Peq)
    requires p.Valid()
    ensures AllGenuine(p.User()) && forall i :: 0 <= i < |p.User()| ==> !Marks(p.User()[i])
  {
    if p.Peq? { KeptIsGenuine(p.filters); }
  }

  /** Filters outside every block followed by one block. */
  lemma {:induction false} AppendedBlock(user: seq<Filter>, block: seq<Filter>)
    requires AllGenuine(user) && (forall i :: 0 <= i < |user| ==> !Marks(user[i])) && IsBlock(block)
    ensures AllGenuine(user + block) && Balanced(user + block, None)
    ensures Kept(user + block, false) == user && FirstMark(user + block) < |user + block|
  {
    GenuineAppend(user, block);
    WithoutBlock(user, block);
    EmptyLast(user);
    assert (user + block)[|user| + FirstMark(block)] == block[FirstMark(block)];
  }

  lemma {:induction false} FirstIsToken(p: Peq)
    requires p.Valid()
    ensures IsToken(p.First())
  {
    EmptyStart();
  }

  lemma {:induction false} MadeIsValid(first: string, n: nat, fs: seq<Filter>)
    requires IsToken(first) && AllGenuine(fs) && Balanced(fs, None)
    ensures Peq(first, Header(n), n, fs).Valid()
  {
    HeaderReads(n);
  }

  lemma {:induction false} LoadedIs(p: Peq, block: seq<Filter>, first: string, n: nat, user: seq<Filter>)
    requires first == p.First() && n == p.CountCleared() && user == p.User()
    ensures Loaded(p, block) == Peq(first, Header(n + |block|), n + |block|, user + block)
  {
  }

  lemma {:induction false} MadeOfBlock(first: string, n: nat, user: seq<Filter>, block: seq<Filter>, q: Peq)
    requires IsToken(first) && AllGenuine(user) && (forall i :: 0 <= i < |user| ==> !Marks(user[i])) && IsBlock(block)
    requires q == Peq(first, Header(n), n, user + block)
    ensures q.Valid() && q.User() == user && FirstMark(q.filters) < |q.filters|
    ensures q.First() == first && q.CountCleared() == |user|
  {
    AppendedBlock(user, block);
    MadeIsValid(first, n, user + block);
  }

  /** A load gives a valid PEQ with the same user filters, one block, and a count that is right once the block is
      gone. */
  lemma {:induction false} LoadedIsValid(p: Peq, block: seq<Filter>)
    requires p.Valid() && IsBlock(block)
    ensures var q := Loaded(p, block); q.Valid() && q.User() == p.User() && FirstMark(q.filters) < |q.filters|
    ensures var q := Loaded(p, block); q.First() == p.First() && q.CountCleared() == |p.User()|
  {
    var first, n, user := p.First(), p.CountCleared(), p.User();
    FirstIsToken(p);
    UserHasNoMark(p);
    LoadedIs(p, block, first, n, user);
    MadeOfBlock(first, n + |block|, user, block, Loaded(p, block));
  }

  /** An entry whose filter types are all known and whose texts can be printed. */
  predicate Loadable(e: Entry, channels: string) { PrintableEntry(e, channels) && ConvertAll(e.filters, channels).Ok? }

  function Xmls(e: Entry, channels: string): seq<string>
    requires Loadable(e, channels)
  {
    PrintGroups(Marked(e.title, ConvertAll(e.filters, channels).value))
  }

  /** The block of an entry. */
  function EntryBlock(e: Entry, channels: string): seq<Filter>
    requires Loadable(e, channels)
  {
    Block(e.title, ConvertAll(e.filters, channels).value)
  }

  lemma {:induction false} EntryPrints(e: Entry, channels: string)
    requires Loadable(e, channels)
    ensures Prints(Xmls(e, channels), EntryBlock(e, channels))
    ensures forall text :: Load(e, channels, text) == LoadXmls(Xmls(e, channels), text)
  {
    AllConvertedArePlain(e.filters, channels);
    BlockPrints(e.title, ConvertAll(e.filters, channels).value);
  }

  /** A load leaves the user's filters in order followed by the entry's block. */
  lemma {:induction false} LoadKeepsUserFilters(p: Peq, e: Entry, channels: string)
    requires p.Valid() && Loadable(e, channels)
    ensures Loaded(p, EntryBlock(e, channels)).Valid()
    ensures Load(e, channels, p.Text()) == Ok(Loaded(p, EntryBlock(e, channels)).Text())
  {
    EntryPrints(e, channels);
    LoadAppendsBlock(p, Xmls(e, channels), EntryBlock(e, channels));
    LoadedIsValid(p, EntryBlock(e, channels));
  }

  /** Clearing after a load gives back the user's filters, the same and in the same order as clearing before it. */
  lemma {:induction false} ClearUndoesLoad(p: Peq, e: Entry, channels: string)
    requires p.Valid() && Loadable(e, channels)
    ensures Load(e, channels, p.Text()).Ok?
    ensures RemoveAll(Load(e, channels, p.Text()).value) == Ok(Make(p.First(), Header(|p.User()|), p.User()))
    ensures p.Peq? ==> exists count :: IsToken(count) && RemoveAll(p.Text()) == Ok(Make(p.First(), count, p.User()))
    ensures p.Nothing? ==> RemoveAll(p.Text()) == Ok([]) && p.User() == []
  {
    LoadKeepsUserFilters(p, e, channels);
    EntryPrints(e, channels);
    LoadedIsValid(p, EntryBlock(e, channels));
    ClearKeepsUserFilters(Loaded(p, EntryBlock(e, channels)));
    if p.Peq? {
      var count := ClearedCount(p);
    } else {
      ClearKeepsUserFilters(p);
    }
  }

  lemma {:induction false} HeadersDiffer(first: string, m: string, n: string, texts: seq<string>)
    requires [first, m] + texts == [first, n] + texts
    ensures m == n
  {
    assert ([first, m] + texts)[1] == m && ([first, n] + texts)[1] == n;
  }

  lemma {:induction false} OverIff(first: string, n: nat, kept: nat, more: nat, fs: seq<Filter>)
    requires IsToken(first) && AllGenuine(fs)
    ensures Make(first, Header(kept + more), fs) == Make(first, Header(n + more), fs) <==> n == kept
  {
    var over, alone := kept + more, n + more;
    if Make(first, Header(over), fs) == Make(first, Header(alone), fs) {
      HeaderReads(over);
      HeaderReads(alone);
      MakeFragments(first, Header(over), fs);
      MakeFragments(first, Header(alone), fs);
      HeadersDiffer(first, Header(over), Header(alone), Texts(fs));
      HeaderInjective(over, alone);
    }
  }

  lemma {:induction false} TextsIff(p: Peq, q: Peq, b: seq<Filter>, first: string, n: nat, user: seq<Filter>)
    requires IsToken(first) && AllGenuine(user) && AllGenuine(b)
    requires first == p.First() == q.First() && n == p.CountCleared() && user == p.User() == q.User()
        && q.CountCleared() == |user|
    ensures Loaded(q, b).Text() == Loaded(p, b).Text() <==> n == |user|
  {
    LoadedText(q, b, first, |user| + |b|, user + b);
    LoadedText(p, b, first, n + |b|, user + b);
    GenuineAppend(user, b);
    OverIff(first, n, |user|, |b|, user + b);
  }

  lemma {:induction false} LoadedOverIff(p: Peq, a: seq<Filter>, b: seq<Filter>)
    requires p.Valid() && IsBlock(a) && IsBlock(b)
    ensures Loaded(Loaded(p, a), b).Text() == Loaded(p, b).Text() <==> p.CountCleared() == |p.User()|
  {
    LoadedIsValid(p, a);
    FirstIsToken(p);
    UserHasNoMark(p);
    TextsIff(p, Loaded(p, a), b, p.First(), p.CountCleared(), p.User());
  }

  /** A load over a load is the second load alone exactly when the count, once BEQ is removed, was right to begin
      with. */
  lemma {:induction false} LoadOverLoadIff(p: Peq, a: Entry, b: Entry, channels: string)
    requires p.Valid() && Loadable(a, channels) && Loadable(b, channels)
    ensures Load(a, channels, p.Text()).Ok?
    ensures Load(b, channels, Load(a, channels, p.Text()).value) == Load(b, channels, p.Text()) <==>
            p.CountCleared() == |p.User()|
  {
    EntryPrints(a, channels);
    EntryPrints(b, channels);
    LoadKeepsUserFilters(p, a, channels);
    LoadKeepsUserFilters(p, b, channels);
    LoadKeepsUserFilters(Loaded(p, EntryBlock(a, channels)), b, channels);
    LoadedOverIff(p, EntryBlock(a, channels), EntryBlock(b, channels));
  }

  /** A right count stays right: after any load it is the number of filters in the text. */
  lemma {:induction false} CountStaysRight(p: Peq, e: Entry, channels: string)
    requires p.Valid() && Loadable(e, channels) && (p.Peq? ==> p.n == |p.filters|)
    ensures
      var q := Loaded(p, EntryBlock(e, channels));
      Load(e, channels, p.Text()) == Ok(q.Text()) && q.n == |q.filters| && ReadCount(q.count) == Some(|q.filters|)
  {
    LoadKeepsUserFilters(p, e, channels);
    if p.Peq? && FirstMark(p.filters) == |p.filters| { NoMarkKeepsAll(p.filters); }
  }
}
