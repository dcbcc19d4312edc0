/** Finding, removing and adding BEQ blocks in the token text of a JRiver PEQ block. */
module JRiverDsp {
  import opened Common
  import opened Text
  import opened JRiverXml

  // ---- tokens ----

  /** The non-empty pieces, each closed again. */
  function Close(pieces: seq<string>): seq<string> {
    if pieces == [] then [] else (if pieces[0] == [] then [] else [pieces[0] + ")"]) + Close(pieces[1..])
  }

  function Fragments(text: string): seq<string> { Close(Split(text, ')')) }

  /** A token ends at its only closing parenthesis and has something before it. */
  predicate IsToken(t: string) {
    |t| >= 2 && t[|t| - 1] == ')' && Free(t[..|t| - 1], ')')
  }

  lemma {:induction false} ClosedAreTokens(pieces: seq<string>)
    requires forall i :: 0 <= i < |pieces| ==> Free(pieces[i], ')')
    ensures forall i :: 0 <= i < |Close(pieces)| ==> IsToken(Close(pieces)[i])
  {
    if pieces != [] {
      ClosedAreTokens(pieces[1..]);
      TakePrefix(pieces[0], ")");
    }
  }

  lemma {:induction false} FragmentsAreTokens(text: string)
    ensures forall i :: 0 <= i < |Fragments(text)| ==> IsToken(Fragments(text)[i])
  {
    SplitPiecesFree(text, ')');
    ClosedAreTokens(Split(text, ')'));
  }

  /** A text put together from tokens falls apart into the same tokens. */
  lemma {:induction false} FragmentsOfConcat(tokens: seq<string>)
    requires forall i :: 0 <= i < |tokens| ==> IsToken(tokens[i])
    ensures Fragments(Concat(tokens)) == tokens
  {
    if tokens == [] {
      assert Close([[]]) == [] + Close([[]][1..]);
    } else {
      var t, rest := tokens[0], Concat(tokens[1..]);
      var v := t[..|t| - 1];
      assert t == v + [')'];
      FragmentsOfConcat(tokens[1..]);
      SplitPiece(v, rest, ')');
      var pieces := [v] + Split(rest, ')');
      assert pieces[1..] == Split(rest, ')');
      assert [t] + tokens[1..] == tokens;
    }
  }

  lemma {:induction false} ConcatAppend(a: seq<string>, b: seq<string>)
    ensures Concat(a + b) == Concat(a) + Concat(b)
  {
    if a == [] {
      EmptyFirst(b);
      EmptyFirst(Concat(b));
    } else {
      assert (a + b)[1..] == a[1..] + b;
      ConcatAppend(a[1..], b);
      Regroup(a[0], Concat(a[1..]), Concat(b));
    }
  }

  // ---- the count token ----

  function Header(n: nat): string {
    "(" + (Decimal(|Decimal(n)|) + (":" + (Decimal(n) + ")")))
  }

  /** int(token[1:-1].split(':')[1]); None is an exception. */
  function ReadCount(token: string): Option<nat>
    requires |token| >= 2
  {
    var pieces := Split(token[1..|token| - 1], ':');
    if |pieces| < 2 || !IsDigits(pieces[1]) then None else
    ReadIsNat(pieces[1]);
    Some(ReadNat(pieces[1]))
  }

  lemma {:induction false} HeaderReads(n: nat)
    ensures IsToken(Header(n)) && ReadCount(Header(n)) == Some(n)
  {
    var l, d := Decimal(|Decimal(n)|), Decimal(n);
    ReadDecimal(|Decimal(n)|);
    ReadDecimal(n);
    HeaderOpens(l, d);
    SplitPiece(l, d, ':');
    SplitFree(d, ':');
  }

  lemma {:induction false} HeaderOpens(l: string, d: string)
    requires IsDigits(l) && IsDigits(d)
    ensures var h := "(" + (l + (":" + (d + ")"))); IsToken(h) && h[1..|h| - 1] == l + [':'] + d
  {
  }

  lemma {:induction false} HeaderInjective(m: nat, n: nat)
    requires Header(m) == Header(n)
    ensures m == n
  {
    HeaderReads(m);
    HeaderReads(n);
  }

  // ---- filters and BEQ marks ----

  const META_TYPE := "20"
  const START_MARK := "***BEQ_START|"
  const END_MARK := "***BEQ_END|"

  /** A value by name; the last wins, as in a dictionary. */
  function Lookup(vals: Vals, name: string): Option<string> {
    if vals == [] then None else
    var n := |vals| - 1;
    if vals[n].0 == name then Some(vals[n].1) else Lookup(vals[..n], name)
  }

  /** What a filter is to BEQ; an element with no text has None for it, which raises where the text is examined. */
  datatype Kind = Start(name: string) | End(name: string) | Plain | Crash

  function KindOf(vals: Vals): Kind {
    if Lookup(vals, "Type") != Some(META_TYPE) then Plain else
    match Lookup(vals, "Text")
    case None => Plain
    case Some(t) =>
      if t == [] then Crash
      else if START_MARK <= t then Start(t[|START_MARK|..])
      else if END_MARK <= t then End(t[|END_MARK|..])
      else Plain
  }

  datatype Filter = Filter(text: string, kind: Kind)

  datatype DspError = UnexpectedFormat | ParseError | NamesDiffer | UnexpectedBeqFormat | Crashed | UnknownFilter

  /** The filters among the tokens, in order; tokens without a colon are dropped. */
  function Collect(tokens: seq<string>): Result<seq<Filter>, DspError> {
    if tokens == [] then Ok([]) else
    match Collect(tokens[..|tokens| - 1])
    case Err(e) => Err(e)
    case Ok(front) =>
      match ParseFragment(tokens[|tokens| - 1])
      case NotItem => Ok(front)
      case Broken => Err(ParseError)
      case Parsed(v) => Ok(front + [Filter(tokens[|tokens| - 1], KindOf(v))])
  }

  function Texts(fs: seq<Filter>): seq<string> {
    seq(|fs|, i requires 0 <= i < |fs| => fs[i].text)
  }

  /** The search for a block from position i: the last start before the first end, and that end. */
  function Scan(fs: seq<Filter>, i: nat, start: int, end: int, name: string): Result<(int, int), DspError>
    requires i <= |fs|
    decreases |fs| - i
  {
    if i == |fs| || (start > -1 && end > -1) then Ok((start, end)) else
    match fs[i].kind
    case Crash => Err(Crashed)
    case Start(n) => Scan(fs, i + 1, i, end, n)
    case End(n) => if n != name then Err(NamesDiffer) else Scan(fs, i + 1, start, i, name)
    case Plain => Scan(fs, i + 1, start, end, name)
  }

  lemma {:induction false} ScanBounds(fs: seq<Filter>, i: nat, start: int, end: int, name: string)
    requires i <= |fs| && -1 <= start < |fs| && -1 <= end < |fs|
    ensures var r := Scan(fs, i, start, end, name); r.Ok? ==> -1 <= r.value.0 < |fs| && -1 <= r.value.1 < |fs|
    decreases |fs| - i
  {
    if i < |fs| && !(start > -1 && end > -1) {
      match fs[i].kind
      case Crash =>
      case Start(n) => ScanBounds(fs, i + 1, i, end, n);
      case End(_) => ScanBounds(fs, i + 1, start, i, name);
      case Plain => ScanBounds(fs, i + 1, start, end, name);
    }
  }

  /** The tokens with a new count and new filters. */
  function Rebuilt(first: string, filters: seq<string>): string {
    Concat([first, Header(|filters|)] + filters)
  }

  /** remove_beq_filter: the text without its first block, or None when there is none. */
  function RemoveBeq(text: string): Result<Option<string>, DspError> {
    if text == [] then Ok(None) else
    var frags := Fragments(text);
    if |frags| < 2 then Err(UnexpectedFormat) else
    match Collect(frags[2..])
    case Err(e) => Err(e)
    case Ok(fs) =>
      match Scan(fs, 0, -1, -1, [])
      case Err(e) => Err(e)
      case Ok(found) =>
        ScanBounds(fs, 0, -1, -1, []);
        if found.0 == -1 then Ok(None)
        else if found.1 > found.0 then Ok(Some(Rebuilt(frags[0], Texts(fs[..found.0] + fs[found.1 + 1..]))))
        else Err(UnexpectedBeqFormat)
  }

  // ---- each effective removal takes at least two tokens ----

  lemma {:induction false} CollectedAreTokens(tokens: seq<string>)
    requires Collect(tokens).Ok?
    ensures |Collect(tokens).value| <= |tokens|
    ensures forall i :: 0 <= i < |Collect(tokens).value| ==> Collect(tokens).value[i].text in tokens
  {
    if tokens != [] {
      CollectedAreTokens(tokens[..|tokens| - 1]);
      assert tokens == tokens[..|tokens| - 1] + [tokens[|tokens| - 1]];
    }
  }

  lemma {:induction false} RebuiltFragments(first: string, filters: seq<string>)
    requires IsToken(first) && forall i :: 0 <= i < |filters| ==> IsToken(filters[i])
    ensures Fragments(Rebuilt(first, filters)) == [first, Header(|filters|)] + filters
  {
    HeaderReads(|filters|);
    FragmentsOfConcat([first, Header(|filters|)] + filters);
  }

  /** Removing a block from any text at all leaves at least two tokens fewer. */
  lemma {:induction false} RemovalShrinks(text: string)
    requires RemoveBeq(text).Ok? && RemoveBeq(text).value.Some?
    ensures |Fragments(RemoveBeq(text).value.value)| + 2 <= |Fragments(text)|
  {
    var frags := Fragments(text);
    var fs := Collect(frags[2..]).value;
    ScanBounds(fs, 0, -1, -1, []);
    var found := Scan(fs, 0, -1, -1, []).value;
    var kept := fs[..found.0] + fs[found.1 + 1..];
    FragmentsAreTokens(text);
    CollectedAreTokens(frags[2..]);
    forall i | 0 <= i < |Texts(kept)|
      ensures IsToken(Texts(kept)[i])
    {
      assert kept[i] in fs;
      var t := kept[i].text;
      assert t in frags[2..];
    }
    RebuiltFragments(frags[0], Texts(kept));
  }

  /** The loop that removes every block. */
  function RemoveAll(text: string): Result<string, DspError>
    decreases |Fragments(text)|
  {
    match RemoveBeq(text)
    case Err(e) => Err(e)
    case Ok(None) => Ok(text)
    case Ok(Some(less)) =>
      RemovalShrinks(text);
      RemoveAll(less)
  }

  // ---- the loops ----

  method SplitTokens(text: string) returns (frags: seq<string>)
    ensures frags == Fragments(text)
  {
    frags := [];
    var pieces := Split(text, ')');
    for i := 0 to |pieces|
      invariant frags + Close(pieces[i..]) == Close(pieces)
    {
      ghost var rest := pieces[i..];
      assert rest[1..] == pieces[i + 1..];
      Regroup(frags, if pieces[i] == [] then [] else [pieces[i] + ")"], Close(rest[1..]));
      if pieces[i] != [] {
        frags := frags + [pieces[i] + ")"];
      } else {
        EmptyLast(frags);
      }
    }
    EmptyLast(frags);
  }

  method CollectFilters(tokens: seq<string>) returns (r: Result<seq<Filter>, DspError>)
    ensures r == Collect(tokens)
  {
    var fs: seq<Filter> := [];
    for i := 0 to |tokens|
      invariant Collect(tokens[..i]) == Ok(fs)
    {
      assert tokens[..i + 1][..i] == tokens[..i];
      match ParseFragment(tokens[i])
      case NotItem =>
      case Broken =>
        CollectFails(tokens, i + 1);
        return Err(ParseError);
      case Parsed(v) => fs := fs + [Filter(tokens[i], KindOf(v))];
    }
    assert tokens[..|tokens|] == tokens;
    return Ok(fs);
  }

  lemma {:induction false} CollectFails(tokens: seq<string>, i: nat)
    requires i <= |tokens| && Collect(tokens[..i]).Err?
    ensures Collect(tokens) == Collect(tokens[..i])
    decreases |tokens|
  {
    if i == |tokens| {
      assert tokens[..i] == tokens;
    } else {
      assert tokens[..|tokens| - 1][..i] == tokens[..i];
      CollectFails(tokens[..|tokens| - 1], i);
    }
  }

  method FindBlock(fs: seq<Filter>) returns (r: Result<(int, int), DspError>)
    ensures r == Scan(fs, 0, -1, -1, [])
  {
    var start, end, name := -1, -1, [];
    var i := 0;
    while i < |fs| && !(start > -1 && end > -1)
      invariant i <= |fs| && Scan(fs, i, start, end, name) == Scan(fs, 0, -1, -1, [])
    {
      match fs[i].kind {
        case Crash => return Err(Crashed);
        case Start(n) => start, name := i, n;
        case End(n) =>
          if n != name { return Err(NamesDiffer); }
          end := i;
        case Plain =>
      }
      i := i + 1;
    }
    return Ok((start, end));
  }

  method RemoveBeqFilter(text: string) returns (r: Result<Option<string>, DspError>)
    ensures r == RemoveBeq(text)
  {
    if text == [] { return Ok(None); }
    var frags := SplitTokens(text);
    if |frags| < 2 { return Err(UnexpectedFormat); }
    var fs := CollectFilters(frags[2..]);
    if fs.Err? { return Err(fs.error); }
    var found := FindBlock(fs.value);
    if found.Err? { return Err(found.error); }
    var (start, end) := found.value;
    ScanBounds(fs.value, 0, -1, -1, []);
    if start == -1 { return Ok(None); }
    if end <= start { return Err(UnexpectedBeqFormat); }
    return Ok(Some(Rebuilt(frags[0], Texts(fs.value[..start] + fs.value[end + 1..]))));
  }

  /** The guard on `tries` never changes, so what ends the loop is the number of tokens. */
  method RemoveAllBeq(text: string) returns (r: Result<string, DspError>)
    ensures r == RemoveAll(text)
  {
    var tries := 0;
    var final := text;
    while tries < 100
      invariant tries == 0 && RemoveAll(final) == RemoveAll(text)
      decreases |Fragments(final)|
    {
      var tmp := RemoveBeqFilter(final);
      if tmp.Err? { return Err(tmp.error); }
      if tmp.value.Some? && tmp.value.value != final {
        RemovalShrinks(final);
        final := tmp.value.value;
      } else {
        if tmp.value.Some? { RemovalShrinks(final); }
        break;
      }
    }
    return Ok(final);
  }
}
