/** Loading and clearing a JRiver PEQ block undo each other. */
module JRiverTheorems {
  import opened Common
  import opened Text
  import opened JRiverXml
  import opened JRiverDsp
  import opened JRiverLoad

  // ---- counting printed filters ----

  lemma {:induction false} SkipFree(a: string, b: string)
    requires Free(a, '<')
    ensures CountMarks(a + b) == CountMarks(b)
    decreases a
  {
    if a == [] {
      EmptyFirst(b);
    } else {
      var s := a + b;
      assert s[1..] == a[1..] + b;
      SkipFree(a[1..], b);
      SkipOne(s);
    }
  }

  /** A mark begins with `<X`. */
  lemma {:induction false} SkipOne(s: string)
    requires s != [] && (s[0] != '<' || (|s| > 1 && s[1] != 'X'))
    ensures CountMarks(s) == CountMarks(s[1..])
  {
    assert MARK[0] == '<' && MARK[1] == 'X';
    if |s| < |MARK| { ShortHasNone(s[1..]); }
  }

  lemma {:induction false} ShortHasNone(s: string)
    requires |s| < |MARK|
    ensures CountMarks(s) == 0
  {
  }

  lemma {:induction false} SkipTag(tag: string, b: string)
    requires |tag| >= 2 && tag[0] == '<' && tag[1] != 'X' && Free(tag[1..], '<')
    ensures CountMarks(tag + b) == CountMarks(b)
  {
    var s := tag + b;
    assert s[1..] == tag[1..] + b;
    SkipOne(s);
    SkipFree(tag[1..], b);
  }

  lemma {:induction false} ItemHasNoMark(kv: (string, string), b: string)
    requires PrintableText(kv.0) && PrintableText(kv.1)
    ensures CountMarks(ItemXml(kv) + b) == CountMarks(b)
  {
    ItemXmlThen(kv.0, kv.1, b);
    var d := ITEM_CLOSE + b;
    var c := kv.1 + d;
    SkipTag(ITEM_OPEN, kv.0 + (ITEM_MID + c));
    SkipFree(kv.0, ITEM_MID + c);
    SkipFree(ITEM_MID, c);
    SkipFree(kv.1, d);
    SkipTag(ITEM_CLOSE, b);
  }

  lemma {:induction false} LinesHaveNoMark(vals: Vals, b: string)
    requires Printable(vals)
    ensures CountMarks(Lines(vals) + b) == CountMarks(b)
  {
    if vals == [] {
      Regroup(NEWLINE, SUFFIX, b);
      SkipFree(NEWLINE, SUFFIX + b);
      SkipTag(SUFFIX, b);
    } else {
      Regroup(NEWLINE, ItemXml(vals[0]) + Lines(vals[1..]), b);
      Regroup(ItemXml(vals[0]), Lines(vals[1..]), b);
      SkipFree(NEWLINE, ItemXml(vals[0]) + (Lines(vals[1..]) + b));
      ItemHasNoMark(vals[0], Lines(vals[1..]) + b);
      LinesHaveNoMark(vals[1..], b);
    }
  }

  lemma {:induction false} ContentIsLines(vals: Vals)
    requires vals != []
    ensures Content(vals) == MARK + (VERSION + Lines(vals))
  {
    var items := Join(Items(vals), NEWLINE);
    JoinIsLines(vals);
    Regroup(PREFIX, NEWLINE, items);
    Regroup(PREFIX, NEWLINE + items, NEWLINE);
    Regroup(PREFIX, NEWLINE + items + NEWLINE, SUFFIX);
    Regroup(MARK, VERSION, Lines(vals));
  }

  lemma {:induction false} ContentHasOneMark(vals: Vals, b: string)
    requires Printable(vals) && vals != []
    ensures CountMarks(Content(vals) + b) == 1 + CountMarks(b)
  {
    var lines := Lines(vals);
    ContentIsLines(vals);
    Regroup(MARK, VERSION + lines, b);
    Regroup(VERSION, lines, b);
    DropPrefix(MARK, VERSION + (lines + b));
    SkipFree(VERSION, lines + b);
    LinesHaveNoMark(vals, b);
  }

  lemma {:induction false} FiltHasOneMark(vals: Vals, b: string)
    requires Printable(vals) && vals != []
    ensures CountMarks(FiltToXml(vals) + b) == 1 + CountMarks(b)
  {
    var digits, content := Decimal(TotalLength(vals)), Content(vals);
    ReadDecimal(TotalLength(vals));
    Regroup("(", digits + (":" + (content + ")")), b);
    Regroup(digits, ":" + (content + ")"), b);
    Regroup(":", content + ")", b);
    Regroup(content, ")", b);
    SkipFree("(", digits + (":" + (content + (")" + b))));
    SkipFree(digits, ":" + (content + (")" + b)));
    SkipFree(":", content + (")" + b));
    ContentHasOneMark(vals, ")" + b);
    SkipFree(")", b);
  }

  ghost predicate PrintableFilters(fs: seq<Vals>) {
    forall i :: 0 <= i < |fs| ==> Printable(fs[i]) && fs[i] != []
  }

  lemma {:induction false} FiltersHaveTheirMarks(fs: seq<Vals>)
    requires PrintableFilters(fs)
    ensures CountMarks(FiltsToXml(fs)) == |fs|
  {
    if fs == [] {
      ShortHasNone([]);
    } else {
      FiltersHaveTheirMarks(fs[1..]);
      FiltHasOneMark(fs[0], FiltsToXml(fs[1..]));
    }
  }

  function Flatten(groups: seq<seq<Vals>>): seq<Vals> {
    if groups == [] then [] else groups[0] + Flatten(groups[1..])
  }

  function Tokens(fs: seq<Vals>): seq<string> {
    seq(|fs|, i requires 0 <= i < |fs| => FiltToXml(fs[i]))
  }

  ghost predicate PrintableGroups(groups: seq<seq<Vals>>) {
    forall i :: 0 <= i < |groups| ==> PrintableFilters(groups[i])
  }

  lemma {:induction false} FiltsConcat(fs: seq<Vals>)
    ensures FiltsToXml(fs) == Concat(Tokens(fs))
  {
    if fs != [] {
      FiltsConcat(fs[1..]);
      assert Tokens(fs)[1..] == Tokens(fs[1..]);
    }
  }

  lemma {:induction false} TokensAppend(a: seq<Vals>, b: seq<Vals>)
    ensures Tokens(a + b) == Tokens(a) + Tokens(b)
  {
  }

  lemma {:induction false} PrintGroupsStep(groups: seq<seq<Vals>>)
    requires groups != []
    ensures PrintGroups(groups) == [FiltsToXml(groups[0])] + PrintGroups(groups[1..])
  {
  }

  /** The groups print to the tokens of their filters, and are counted as many. */
  lemma {:induction false} GroupsPrint(groups: seq<seq<Vals>>)
    requires PrintableGroups(groups)
    ensures Concat(PrintGroups(groups)) == Concat(Tokens(Flatten(groups)))
    ensures CountAll(PrintGroups(groups)) == |Flatten(groups)|
  {
    if groups != [] {
      var rest := groups[1..];
      GroupsPrint(rest);
      PrintGroupsStep(groups);
      DropPrefix([FiltsToXml(groups[0])], PrintGroups(rest));
      FiltersHaveTheirMarks(groups[0]);
      FiltsConcat(groups[0]);
      TokensAppend(groups[0], Flatten(rest));
      ConcatAppend(Tokens(groups[0]), Tokens(Flatten(rest)));
    }
  }

  // ---- texts put together from tokens ----

  /** A filter whose token reads back as it. */
  predicate Genuine(f: Filter) {
    IsToken(f.text) && f.kind != Crash && ParseFragment(f.text).Parsed? && f.kind == KindOf(ParseFragment(f.text).vals)
  }

  predicate AllGenuine(fs: seq<Filter>) { forall i :: 0 <= i < |fs| ==> Genuine(fs[i]) }

  /** A PEQ text: a first token, a count token and the filters. */
  function Make(first: string, count: string, fs: seq<Filter>): string { Concat([first, count] + Texts(fs)) }

  lemma {:induction false} CollectStep(tokens: seq<string>, t: string, fs: seq<Filter>, f: Filter)
    requires Collect(tokens) == Ok(fs) && Genuine(f) && t == f.text
    ensures Collect(tokens + [t]) == Ok(fs + [f])
  {
    TakePrefix(tokens, [t]);
  }

  lemma {:induction false} TextsStep(fs: seq<Filter>)
    requires fs != []
    ensures var n := |fs| - 1; Texts(fs) == Texts(fs[..n]) + [fs[n].text] && fs == fs[..n] + [fs[n]]
  {
  }

  lemma {:induction false} CollectGenuine(fs: seq<Filter>)
    requires AllGenuine(fs)
    ensures Collect(Texts(fs)) == Ok(fs)
  {
    if fs != [] {
      var n := |fs| - 1;
      CollectGenuine(fs[..n]);
      TextsStep(fs);
      CollectStep(Texts(fs[..n]), fs[n].text, fs[..n], fs[n]);
    }
  }

  lemma {:induction false} MakeFragments(first: string, count: string, fs: seq<Filter>)
    requires IsToken(first) && IsToken(count) && AllGenuine(fs)
    ensures Fragments(Make(first, count, fs)) == [first, count] + Texts(fs) && Make(first, count, fs) != []
  {
    FragmentsOfConcat([first, count] + Texts(fs));
  }

  // ---- blocks ----

  /** Every block is opened, then closed under the same name, with no block inside; `open` is the one being read. */
  predicate Balanced(fs: seq<Filter>, open: Option<string>) {
    if fs == [] then open.None? else
    match fs[0].kind
    case Start(n) => open.None? && Balanced(fs[1..], Some(n))
    case End(n) => open == Some(n) && Balanced(fs[1..], None)
    case _ => Balanced(fs[1..], open)
  }

  /** The filters outside every block. */
  function Kept(fs: seq<Filter>, inside: bool): seq<Filter> {
    if fs == [] then [] else
    match fs[0].kind
    case Start(_) => Kept(fs[1..], true)
    case End(_) => Kept(fs[1..], false)
    case _ => (if inside then [] else [fs[0]]) + Kept(fs[1..], inside)
  }

  predicate Marks(f: Filter) { f.kind.Start? || f.kind.End? }

  /** The first mark, or the end. */
  function FirstMark(fs: seq<Filter>): (k: nat)
    ensures k <= |fs|
    ensures k < |fs| ==> Marks(fs[k])
    ensures forall i :: 0 <= i < k ==> !Marks(fs[i])
  {
    if fs == [] || Marks(fs[0]) then 0 else
    assert forall i :: 0 < i < |fs| ==> fs[1..][i - 1] == fs[i];
    1 + FirstMark(fs[1..])
  }

  lemma {:induction false} ScanSkips(fs: seq<Filter>, i: nat, k: nat, start: int, name: string)
    requires i + k <= |fs| && forall j :: i <= j < i + k ==> fs[j].kind == Plain
    ensures Scan(fs, i, start, -1, name) == Scan(fs, i + k, start, -1, name)
    decreases k
  {
    if k > 0 { ScanSkips(fs, i + 1, k - 1, start, name); }
  }

  lemma {:induction false} SkipPlain(fs: seq<Filter>, k: nat, open: Option<string>)
    requires k <= |fs| && forall i :: 0 <= i < k ==> !Marks(fs[i])
    ensures Balanced(fs, open) == Balanced(fs[k..], open)
    ensures Kept(fs, open.Some?) == (if open.Some? then [] else fs[..k]) + Kept(fs[k..], open.Some?)
    decreases k
  {
    if k == 0 {
      assert fs[0..] == fs;
      EmptyFirst(Kept(fs, open.Some?));
    } else {
      SkipPlain(fs[1..], k - 1, open);
      assert fs[1..][k - 1..] == fs[k..];
      assert fs[..k] == [fs[0]] + fs[1..][..k - 1];
      Regroup([fs[0]], fs[1..][..k - 1], Kept(fs[k..], open.Some?));
    }
  }

  predicate NoCrash(fs: seq<Filter>) { forall i :: 0 <= i < |fs| ==> fs[i].kind != Crash }

  lemma {:induction false} Unsplit(fs: seq<Filter>, k: nat)
    requires k < |fs|
    ensures fs[k..] == [fs[k]] + fs[k + 1..] && fs[k..][1..] == fs[k + 1..]
  {
  }

  /** The first mark of balanced filters opens a block. */
  lemma {:induction false} Opens(fs: seq<Filter>)
    requires NoCrash(fs) && Balanced(fs, None) && FirstMark(fs) < |fs|
    ensures
      var s := FirstMark(fs);
      && fs[s].kind.Start? && Balanced(fs[s + 1..], Some(fs[s].kind.name))
      && Scan(fs, 0, -1, -1, []) == Scan(fs, s + 1, s, -1, fs[s].kind.name)
      && Kept(fs, false) == fs[..s] + Kept(fs[s + 1..], true)
  {
    var s := FirstMark(fs);
    SkipPlain(fs, s, None);
    ScanSkips(fs, 0, s, -1, []);
    Unsplit(fs, s);
  }

  lemma {:induction false} ClosingMark(tail: seq<Filter>, name: string)
    requires (tail != [] ==> Marks(tail[0])) && Balanced(tail, Some(name))
    ensures tail != [] && tail[0].kind == End(name) && Balanced(tail[1..], None)
        && Kept(tail, true) == Kept(tail[1..], false)
  {
  }

  /** The first mark inside a block closes it. */
  lemma {:induction false} Closes(fs: seq<Filter>, name: string)
    requires NoCrash(fs) && Balanced(fs, Some(name))
    ensures
      var k := FirstMark(fs);
      k < |fs| && fs[k].kind == End(name) && Balanced(fs[k + 1..], None) && Kept(fs, true) == Kept(fs[k + 1..], false)
  {
    var k := FirstMark(fs);
    SkipPlain(fs, k, Some(name));
    EmptyFirst(Kept(fs[k..], true));
    ClosingMark(fs[k..], name);
    Unsplit(fs, k);
  }

  lemma {:induction false} ScanToEnd(fs: seq<Filter>, start: nat, inner: seq<Filter>, k: nat, name: string)
    requires start + 1 + k < |fs| && NoCrash(fs) && fs[start + 1 + k].kind == End(name)
    requires inner == fs[start + 1..] && forall i :: 0 <= i < k ==> !Marks(inner[i])
    ensures Scan(fs, start + 1, start, -1, name) == Ok((start, start + 1 + k))
  {
    forall j | start + 1 <= j < start + 1 + k
      ensures fs[j].kind == Plain
    {
      assert fs[j] == inner[j - start - 1];
    }
    ScanSkips(fs, start + 1, k, start, name);
  }

  lemma {:induction false} WithoutBlock(front: seq<Filter>, rest: seq<Filter>)
    requires (forall i :: 0 <= i < |front| ==> !Marks(front[i])) && Balanced(rest, None)
    ensures Balanced(front + rest, None) && Kept(front + rest, false) == front + Kept(rest, false)
  {
    SkipPlain(front + rest, |front|, None);
    DropPrefix(front, rest);
    TakePrefix(front, rest);
  }

  /** Where the first block of balanced filters starts and ends, and that what is left is balanced and keeps the
      same. */
  lemma {:induction false} FirstBlock(fs: seq<Filter>) returns (start: nat, end: nat)
    requires NoCrash(fs) && Balanced(fs, None) && FirstMark(fs) < |fs|
    ensures start < end < |fs| && Scan(fs, 0, -1, -1, []) == Ok((start, end))
    ensures Balanced(fs[..start] + fs[end + 1..], None)
    ensures Kept(fs[..start] + fs[end + 1..], false) == Kept(fs, false)
  {
    start := FirstMark(fs);
    var inner, name := fs[start + 1..], fs[start].kind.name;
    Opens(fs);
    var k := AfterOpening(fs, start, inner, name);
    end := start + 1 + k;
    WithoutBlock(fs[..start], fs[end + 1..]);
  }

  lemma {:induction false} AfterOpening(fs: seq<Filter>, start: nat, inner: seq<Filter>, name: string) returns (k: nat)
    requires NoCrash(fs) && start < |fs| && inner == fs[start + 1..] && Balanced(inner, Some(name))
    ensures k < |inner| && Scan(fs, start + 1, start, -1, name) == Ok((start, start + 1 + k))
    ensures Balanced(fs[start + 1 + k + 1..], None) && Kept(inner, true) == Kept(fs[start + 1 + k + 1..], false)
  {
    k := FirstMark(inner);
    Closes(inner, name);
    assert inner[k + 1..] == fs[start + 1 + k + 1..];
    ScanToEnd(fs, start, inner, k, name);
  }

  lemma {:induction false} NoMarkKeepsAll(fs: seq<Filter>)
    requires NoCrash(fs) && FirstMark(fs) == |fs|
    ensures Kept(fs, false) == fs && Scan(fs, 0, -1, -1, []) == Ok((-1, -1))
  {
    SkipPlain(fs, |fs|, None);
    assert fs[|fs|..] == [] && fs[..|fs|] == fs;
    EmptyLast(fs);
    ScanSkips(fs, 0, |fs|, -1, []);
  }

  lemma {:induction false} KeptIn(fs: seq<Filter>, inside: bool)
    ensures forall f :: f in Kept(fs, inside) ==> f in fs && !Marks(f)
  {
    if fs != [] {
      KeptIn(fs[1..], true);
      KeptIn(fs[1..], false);
    }
  }

  lemma {:induction false} KeptIsGenuine(fs: seq<Filter>)
    requires AllGenuine(fs)
    ensures AllGenuine(Kept(fs, false)) && FirstMark(Kept(fs, false)) == |Kept(fs, false)|
  {
    KeptIn(fs, false);
    var kept := Kept(fs, false);
    forall i | 0 <= i < |kept|
      ensures Genuine(kept[i]) && !Marks(kept[i])
    {
      assert kept[i] in kept;
    }
  }

  // ---- removing every block ----

  /** What one removal makes of filters already read. */
  function Removed(first: string, fs: seq<Filter>): Result<Option<string>, DspError> {
    match Scan(fs, 0, -1, -1, [])
    case Err(e) => Err(e)
    case Ok(found) =>
      ScanBounds(fs, 0, -1, -1, []);
      if found.0 == -1 then Ok(None)
      else if found.1 > found.0 then
        var kept := fs[..found.0] + fs[found.1 + 1..];
        Ok(Some(Make(first, Header(|kept|), kept)))
      else Err(UnexpectedBeqFormat)
  }

  lemma {:induction false} RemoveFromMade(first: string, count: string, fs: seq<Filter>)
    requires IsToken(first) && IsToken(count) && AllGenuine(fs)
    ensures RemoveBeq(Make(first, count, fs)) == Removed(first, fs)
  {
    MakeFragments(first, count, fs);
    CollectGenuine(fs);
    DropPrefix([first, count], Texts(fs));
  }

  lemma {:induction false} RemoveAllStep(text: string)
    requires RemoveBeq(text).Ok?
    ensures RemoveAll(text) == if RemoveBeq(text).value.Some? then RemoveAll(RemoveBeq(text).value.value) else Ok(text)
  {
  }

  lemma {:induction false} CutIsGenuine(fs: seq<Filter>, start: nat, end: nat)
    requires start < end < |fs| && AllGenuine(fs)
    ensures AllGenuine(fs[..start] + fs[end + 1..]) && |fs[..start] + fs[end + 1..]| < |fs|
  {
    var rest := fs[..start] + fs[end + 1..];
    forall i | 0 <= i < |rest|
      ensures Genuine(rest[i])
    {
      assert rest[i] == if i < start then fs[i] else fs[i - start + end + 1];
    }
  }

  lemma {:induction false} RemovedBlock(first: string, fs: seq<Filter>, start: nat, end: nat)
    requires start < end < |fs| && Scan(fs, 0, -1, -1, []) == Ok((start, end))
    ensures var rest := fs[..start] + fs[end + 1..]; Removed(first, fs) == Ok(Some(Make(first, Header(|rest|), rest)))
  {
  }

  /** Removing the first block of balanced filters. */
  lemma {:induction false} OneRemoved(first: string, count: string, fs: seq<Filter>) returns (rest: seq<Filter>)
    requires IsToken(first) && IsToken(count) && AllGenuine(fs) && Balanced(fs, None) && FirstMark(fs) < |fs|
    ensures |rest| < |fs| && AllGenuine(rest) && Balanced(rest, None) && Kept(rest, false) == Kept(fs, false)
    ensures RemoveAll(Make(first, count, fs)) == RemoveAll(Make(first, Header(|rest|), rest))
  {
    var start, end := FirstBlock(fs);
    rest := fs[..start] + fs[end + 1..];
    CutIsGenuine(fs, start, end);
    assert RemoveBeq(Make(first, count, fs)) == Ok(Some(Make(first, Header(|rest|), rest))) by {
      RemoveFromMade(first, count, fs);
      RemovedBlock(first, fs, start, end);
    }
    RemoveAllStep(Make(first, count, fs));
  }

  /** Removing all BEQ from balanced filters keeps exactly those outside the blocks, in order, and corrects the count
      if a block was there. */
  lemma {:induction false} AllRemoved(first: string, count: string, fs: seq<Filter>)
    requires IsToken(first) && IsToken(count) && AllGenuine(fs) && Balanced(fs, None)
    ensures
      var kept := Kept(fs, false);
      RemoveAll(Make(first, count, fs)) == Ok(Make(first, if FirstMark(fs) < |fs| then Header(|kept|) else count, kept))
    decreases |fs|
  {
    if FirstMark(fs) == |fs| {
      NoMarkKeepsAll(fs);
      RemoveFromMade(first, count, fs);
      RemoveAllStep(Make(first, count, fs));
    } else {
      var rest := OneRemoved(first, count, fs);
      HeaderReads(|rest|);
      AllRemoved(first, Header(|rest|), rest);
      if FirstMark(rest) == |rest| { NoMarkKeepsAll(rest); }
    }
  }
}
