/** The text of a JRiver PEQ block: parenthesised tokens, each filter an XML fragment behind its length. */
module JRiverXml {
  import opened Common
  import opened Text

  /** A filter's values as an ordered dictionary. */
  type Vals = seq<(string, string)>

  const MARK := "<XMLPH version"
  const VERSION := "=\"1.1\">"
  const PREFIX := MARK + VERSION
  const SUFFIX := "</XMLPH>"
  const ITEM_OPEN := "<Item Name=\""
  const ITEM_MID := "\">"
  const ITEM_CLOSE := "</Item>"
  const NEWLINE := "\n"

  // ---- printing ----

  function ItemXml(kv: (string, string)): string { ITEM_OPEN + (kv.0 + (ITEM_MID + (kv.1 + ITEM_CLOSE))) }

  function Items(vals: Vals): seq<string> {
    if vals == [] then [] else [ItemXml(vals[0])] + Items(vals[1..])
  }

  function Concat(pieces: seq<string>): string {
    if pieces == [] then [] else pieces[0] + Concat(pieces[1..])
  }

  /** The fragment between the colon and the closing parenthesis. */
  function Content(vals: Vals): string {
    PREFIX + NEWLINE + Join(Items(vals), NEWLINE) + NEWLINE + SUFFIX
  }

  /** The length written in front: every item counted once, and two characters for each line end. */
  function TotalLength(vals: Vals): nat {
    |PREFIX| + |Concat(Items(vals))| + |SUFFIX| + (|Items(vals)| + 1) * 2
  }

  function FiltToXml(vals: Vals): string {
    "(" + (Decimal(TotalLength(vals)) + (":" + (Content(vals) + ")")))
  }

  function FiltsToXml(filters: seq<Vals>): string {
    if filters == [] then [] else FiltToXml(filters[0]) + FiltsToXml(filters[1..])
  }

  // ---- the length header ----

  /** The text as it is sent: every line feed becomes a carriage return and a line feed. */
  function CrLf(s: string): string {
    if s == [] then [] else (if s[0] == '\n' then "\r\n" else [s[0]]) + CrLf(s[1..])
  }

  function LineFeeds(s: string): nat {
    if s == [] then 0 else (if s[0] == '\n' then 1 else 0) + LineFeeds(s[1..])
  }

  lemma {:induction false} CrLfLength(s: string)
    ensures |CrLf(s)| == |s| + LineFeeds(s)
  {
    if s != [] { CrLfLength(s[1..]); }
  }

  lemma {:induction false} LineFeedsAppend(a: string, b: string)
    ensures LineFeeds(a + b) == LineFeeds(a) + LineFeeds(b)
  {
    if a == [] {
      EmptyFirst(b);
    } else {
      assert (a + b)[1..] == a[1..] + b;
      LineFeedsAppend(a[1..], b);
    }
  }

  lemma {:induction false} LineFeedsFree(s: string)
    ensures LineFeeds(s) == 0 <==> Free(s, '\n')
  {
    if s != [] {
      LineFeedsFree(s[1..]);
      assert s == [s[0]] + s[1..];
    }
  }

  lemma {:induction false} JoinMeasures(items: seq<string>)
    requires items != []
    ensures |Join(items, NEWLINE)| == |Concat(items)| + |items| - 1
    ensures LineFeeds(Join(items, NEWLINE)) == LineFeeds(Concat(items)) + |items| - 1
  {
    if |items| == 1 {
      EmptyLast(items[0]);
      assert Concat(items[1..]) == [];
    } else {
      JoinMeasures(items[1..]);
      LineFeedsAppend(items[0] + NEWLINE, Join(items[1..], NEWLINE));
      LineFeedsAppend(items[0], NEWLINE);
      LineFeedsAppend(items[0], Concat(items[1..]));
      OneLineFeed();
    }
  }

  lemma {:induction false} OneLineFeed()
    ensures LineFeeds(NEWLINE) == 1
  {
    assert NEWLINE[1..] == [];
  }

  lemma {:induction false} Surrounded(prefix: string, body: string, suffix: string)
    requires Free(prefix, '\n') && Free(suffix, '\n')
    ensures LineFeeds(prefix + NEWLINE + body + NEWLINE + suffix) == LineFeeds(body) + 2
  {
    LineFeedsAppend(prefix + NEWLINE + body + NEWLINE, suffix);
    LineFeedsAppend(prefix + NEWLINE + body, NEWLINE);
    LineFeedsAppend(prefix + NEWLINE, body);
    LineFeedsAppend(prefix, NEWLINE);
    OneLineFeed();
    LineFeedsFree(prefix);
    LineFeedsFree(suffix);
  }

  lemma {:induction false} ContentMeasures(vals: Vals)
    ensures |Content(vals)| == |PREFIX| + |SUFFIX| + 2 + |Join(Items(vals), NEWLINE)|
    ensures LineFeeds(Content(vals)) == 2 + LineFeeds(Join(Items(vals), NEWLINE))
  {
    Surrounded(PREFIX, Join(Items(vals), NEWLINE), SUFFIX);
  }

  /** The header is the length of what is sent exactly when there is an item and no item holds a line feed. */
  lemma {:induction false} HeaderIsLengthIff(vals: Vals)
    ensures TotalLength(vals) == |CrLf(Content(vals))| <==> vals != [] && Free(Concat(Items(vals)), '\n')
  {
    CrLfLength(Content(vals));
    ContentMeasures(vals);
    ItemsLength(vals);
    LineFeedsFree(Concat(Items(vals)));
    if vals != [] { JoinMeasures(Items(vals)); }
  }

  lemma {:induction false} ItemsLength(vals: Vals)
    ensures |Items(vals)| == |vals|
  {
    if vals != [] { ItemsLength(vals[1..]); }
  }

  // ---- reading a fragment ----

  /** The first place of a character, or the end. */
  function Index(s: string, c: char): (k: nat)
    ensures k <= |s|
    ensures k < |s| ==> s[k] == c
  {
    if s == [] || s[0] == c then 0 else 1 + Index(s[1..], c)
  }

  lemma {:induction false} IndexAt(p: string, rest: string, c: char)
    requires Free(p, c) && rest != [] && rest[0] == c
    ensures Index(p + rest, c) == |p|
    decreases p
  {
    if p == [] {
      EmptyFirst(rest);
    } else {
      assert (p + rest)[1..] == p[1..] + rest;
      IndexAt(p[1..], rest, c);
    }
  }

  predicate IsBreak(c: char) { c == '\n' || c == '\r' || c == ' ' || c == '\t' }

  /** The items of an XMLPH element, as ElementTree would list them; None is a parse error. */
  function ParseBody(s: string): Option<Vals>
    decreases |s|
  {
    if s == SUFFIX then Some([])
    else if s != [] && IsBreak(s[0]) then ParseBody(s[1..])
    else if !(ITEM_OPEN <= s) then None
    else ParseItem(s[|ITEM_OPEN|..], |s|)
  }

  function ParseItem(a: string, ghost bound: nat): Option<Vals>
    requires |a| < bound
    decreases |a|
  {
    var k := Index(a, '"');
    var b := a[k..];
    if !(ITEM_MID <= b) then None else
    var c := b[|ITEM_MID|..];
    var n := Index(c, '<');
    var d := c[n..];
    if !(ITEM_CLOSE <= d) then None else
    match ParseBody(d[|ITEM_CLOSE|..])
    case None => None
    case Some(rest) => Some([(a[..k], c[..n])] + rest)
  }

  function ParseXml(s: string): Option<Vals> {
    if PREFIX <= s then ParseBody(s[|PREFIX|..]) else None
  }

  /** What item_to_dicts makes of a token: nothing without a colon, otherwise its values, or a parse error. */
  datatype Parsed = NotItem | Broken | Parsed(vals: Vals)

  function ParseFragment(frag: string): Parsed {
    var k := Index(frag, ':');
    if k == |frag| then NotItem
    else if k + 1 > |frag| - 1 then Broken
    else match ParseXml(frag[k + 1..|frag| - 1]) case None => Broken case Some(v) => Parsed(v)
  }

  /** Keys and values an XML attribute and element can hold verbatim, inside a token. */
  predicate Printable(vals: Vals) {
    forall i :: 0 <= i < |vals| ==> PrintableText(vals[i].0) && PrintableText(vals[i].1)
  }

  predicate PrintableText(s: string) {
    Free(s, '"') && Free(s, '<') && Free(s, '>') && Free(s, '&') && Free(s, ')') && Free(s, '\n') && Free(s, '\r')
  }

  lemma {:induction false} TakePrefix<T>(a: seq<T>, b: seq<T>)
    ensures (a + b)[..|a|] == a
  {
  }

  lemma {:induction false} ItemReads(k: string, v: string, rest: string, bound: nat)
    requires PrintableText(k) && PrintableText(v) && |k + (ITEM_MID + (v + (ITEM_CLOSE + rest)))| < bound
    ensures ParseItem(k + (ITEM_MID + (v + (ITEM_CLOSE + rest))), bound) ==
            match ParseBody(rest) case None => None case Some(r) => Some([(k, v)] + r)
  {
    var d := ITEM_CLOSE + rest;
    var c := v + d;
    var b := ITEM_MID + c;
    assert b[0] == '"' && d[0] == '<';
    IndexAt(k, b, '"');
    DropPrefix(k, b);
    TakePrefix(k, b);
    DropPrefix(ITEM_MID, c);
    IndexAt(v, d, '<');
    DropPrefix(v, d);
    TakePrefix(v, d);
    DropPrefix(ITEM_CLOSE, rest);
  }

  lemma {:induction false} ItemIsNoSuffix(a: string)
    ensures ITEM_OPEN + a != SUFFIX && !IsBreak((ITEM_OPEN + a)[0])
  {
    assert (ITEM_OPEN + a)[0] == '<' && (ITEM_OPEN + a)[1] == 'I' && SUFFIX[1] == '/';
  }

  lemma {:induction false} ItemXmlThen(k: string, v: string, rest: string)
    ensures ItemXml((k, v)) + rest == ITEM_OPEN + (k + (ITEM_MID + (v + (ITEM_CLOSE + rest))))
  {
    Regroup(ITEM_OPEN, k + (ITEM_MID + (v + ITEM_CLOSE)), rest);
    Regroup(k, ITEM_MID + (v + ITEM_CLOSE), rest);
    Regroup(ITEM_MID, v + ITEM_CLOSE, rest);
    Regroup(v, ITEM_CLOSE, rest);
  }

  lemma {:induction false} ItemParses(kv: (string, string), rest: string)
    requires PrintableText(kv.0) && PrintableText(kv.1)
    ensures ParseBody(ItemXml(kv) + rest) == match ParseBody(rest) case None => None case Some(r) => Some([kv] + r)
  {
    var a := kv.0 + (ITEM_MID + (kv.1 + (ITEM_CLOSE + rest)));
    ItemXmlThen(kv.0, kv.1, rest);
    ItemIsNoSuffix(a);
    DropPrefix(ITEM_OPEN, a);
    ItemReads(kv.0, kv.1, rest, |ITEM_OPEN + a|);
  }

  /** The lines after the prefix. */
  function Lines(vals: Vals): string {
    if vals == [] then NEWLINE + SUFFIX else NEWLINE + (ItemXml(vals[0]) + Lines(vals[1..]))
  }

  lemma {:induction false} LinesRegroup(item: string, tail: string, br: string, suffix: string)
    ensures br + (item + br + tail) + br + suffix == br + (item + (br + tail + br + suffix))
  {
  }

  lemma {:induction false} JoinIsLines(vals: Vals)
    requires vals != []
    ensures NEWLINE + Join(Items(vals), NEWLINE) + NEWLINE + SUFFIX == Lines(vals)
  {
    var items := Items(vals);
    assert items[1..] == Items(vals[1..]);
    if |vals| == 1 {
      assert Join(items, NEWLINE) == ItemXml(vals[0]);
      assert Lines(vals[1..]) == NEWLINE + SUFFIX;
    } else {
      ItemsLength(vals);
      JoinIsLines(vals[1..]);
      var tail := Join(items[1..], NEWLINE);
      assert Join(items, NEWLINE) == ItemXml(vals[0]) + NEWLINE + tail;
      LinesRegroup(ItemXml(vals[0]), tail, NEWLINE, SUFFIX);
    }
  }

  lemma {:induction false} LinesParse(vals: Vals)
    requires Printable(vals)
    ensures ParseBody(Lines(vals)) == Some(vals)
  {
    var rest := if vals == [] then SUFFIX else ItemXml(vals[0]) + Lines(vals[1..]);
    assert Lines(vals) == NEWLINE + rest;
    SkipNewline(rest);
    if vals != [] {
      LinesParse(vals[1..]);
      ItemParses(vals[0], Lines(vals[1..]));
      assert [vals[0]] + vals[1..] == vals;
    }
  }

  lemma {:induction false} SkipNewline(rest: string)
    ensures ParseBody(NEWLINE + rest) == ParseBody(rest)
  {
    DropPrefix(NEWLINE, rest);
    assert (NEWLINE + rest)[0] == '\n' && SUFFIX[0] == '<';
  }

  lemma {:induction false} ContentParses(vals: Vals)
    requires Printable(vals) && vals != []
    ensures ParseXml(Content(vals)) == Some(vals)
  {
    var body, items := Lines(vals), Join(Items(vals), NEWLINE);
    JoinIsLines(vals);
    Regroup(PREFIX, NEWLINE, items);
    Regroup(PREFIX, NEWLINE + items, NEWLINE);
    Regroup(PREFIX, NEWLINE + items + NEWLINE, SUFFIX);
    assert Content(vals) == PREFIX + body;
    DropPrefix(PREFIX, body);
    LinesParse(vals);
  }

  lemma {:induction false} FragmentOpens(digits: string, content: string)
    requires IsDigits(digits)
    ensures
      var frag := "(" + (digits + (":" + (content + ")")));
      var k := Index(frag, ':');
      k + 1 <= |frag| - 1 && frag[k + 1..|frag| - 1] == content
  {
    var tail := ":" + (content + ")");
    Regroup("(", digits, tail);
    IndexAt("(" + digits, tail, ':');
  }

  lemma {:induction false} FragmentParses(digits: string, content: string, vals: Vals)
    requires IsDigits(digits) && ParseXml(content) == Some(vals)
    ensures ParseFragment("(" + (digits + (":" + (content + ")")))) == Parsed(vals)
  {
    FragmentOpens(digits, content);
  }

  /** A printed filter reads back as the values it was printed from. */
  lemma {:induction false} PrintedFilterParses(vals: Vals)
    requires Printable(vals) && vals != []
    ensures ParseFragment(FiltToXml(vals)) == Parsed(vals)
  {
    ReadDecimal(TotalLength(vals));
    ContentParses(vals);
    FragmentParses(Decimal(TotalLength(vals)), Content(vals), vals);
  }

  // ---- the dictionary of a fragment ----

  /** An element's text: nothing at all when it is empty. */
  function TextOf(v: string): Option<string> { if v == "" then None else Some(v) }

  function DictOf(vals: Vals, text: string -> Option<string>): map<string, Option<string>> {
    if vals == [] then map[] else
    var n := |vals| - 1;
    DictOf(vals[..n], text)[vals[n].0 := text(vals[n].1)]
  }

  /** The values item_to_dicts returns: Enabled is always there, and is 0 or 1. */
  function ReadValues(vals: Vals): map<string, Option<string>> {
    var d := DictOf(vals, TextOf);
    if "Enabled" !in d then d["Enabled" := Some("0")]
    else if d["Enabled"] == Some("0") || d["Enabled"] == Some("1") then d
    else d["Enabled" := Some("1")]
  }

  predicate DistinctNames(vals: Vals) { forall i, j :: 0 <= i < j < |vals| ==> vals[i].0 != vals[j].0 }

  lemma {:induction false} DictHas(vals: Vals, text: string -> Option<string>, name: string)
    requires DistinctNames(vals)
    ensures forall i :: 0 <= i < |vals| && vals[i].0 == name ==> Get(DictOf(vals, text), name) == Some(text(vals[i].1))
    ensures (forall i :: 0 <= i < |vals| ==> vals[i].0 != name) ==> name !in DictOf(vals, text)
  {
    if vals != [] { DictHas(vals[..|vals| - 1], text, name); }
  }

  /** The values of a printed filter are read as printed, but for empty ones, and for Enabled, which becomes 0 when it
      is missing and 1 when it is anything but 0 or 1. */
  lemma {:induction false} ValuesRead(vals: Vals, i: nat)
    requires DistinctNames(vals) && i < |vals|
    ensures
      var (name, value) := vals[i];
      Get(ReadValues(vals), name) ==
      Some(if name == "Enabled" && value != "0" then Some("1") else TextOf(value))
  {
    DictHas(vals, TextOf, vals[i].0);
    DictHas(vals, TextOf, "Enabled");
  }

  predicate IsSwitch(value: string) { value == "0" || value == "1" }

  /** A printed filter reads back as a dictionary of the very values printed exactly if none is empty and Enabled is
      printed as 0 or 1. */
  lemma {:induction false} DictReadsBackIff(vals: Vals)
    requires DistinctNames(vals)
    ensures ReadValues(vals) == DictOf(vals, v => Some(v)) <==>
            (forall i :: 0 <= i < |vals| ==> vals[i].1 != "")
            && exists i :: 0 <= i < |vals| && vals[i].0 == "Enabled" && IsSwitch(vals[i].1)
  {
    var printed := DictOf(vals, v => Some(v));
    forall name
      ensures name in printed <==> name in DictOf(vals, TextOf)
    {
      DictHas(vals, v => Some(v), name);
      DictHas(vals, TextOf, name);
    }
    forall i | 0 <= i < |vals|
      ensures Get(printed, vals[i].0) == Some(Some(vals[i].1))
      ensures Get(ReadValues(vals), vals[i].0) ==
              Some(if vals[i].0 == "Enabled" && vals[i].1 != "0" then Some("1") else TextOf(vals[i].1))
    {
      DictHas(vals, v => Some(v), vals[i].0);
      ValuesRead(vals, i);
    }
    DictHas(vals, TextOf, "Enabled");
    DictHas(vals, v => Some(v), "Enabled");
    if (forall i :: 0 <= i < |vals| ==> vals[i].1 != "")
       && exists i :: 0 <= i < |vals| && vals[i].0 == "Enabled" && IsSwitch(vals[i].1)
    {
      forall name
        ensures Get(printed, name) == Get(ReadValues(vals), name)
      {
        DictHas(vals, v => Some(v), name);
        DictHas(vals, TextOf, name);
      }
      SameMaps(printed, ReadValues(vals));
    } else if ReadValues(vals) == printed {
      assert "Enabled" in printed;
      var k :| 0 <= k < |vals| && vals[k].0 == "Enabled";
      assert IsSwitch(vals[k].1);
    }
  }
}
