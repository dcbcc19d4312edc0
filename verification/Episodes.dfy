/** The episodes of a TV entry, printed as ranges, and read back from them. */
module Episodes {
  import opened Common
  import opened Text

  /** int(): None where it raises. */
  type ToInt = string -> Option<int>

  // ---- what the ranges are ----

  function Last<T>(s: seq<T>): T
    requires s != []
  {
    s[|s| - 1]
  }

  /** Whether a group goes on with a piece: it is the next number after the group's last. */
  predicate GoesOn(toInt: ToInt, group: seq<string>, piece: string)
    requires group != []
  {
    toInt(Last(group)).Some? && toInt(piece).Some? && toInt(Last(group)).value == toInt(piece).value - 1
  }

  /** Groups with one more piece. */
  function Grown(toInt: ToInt, groups: seq<seq<string>>, piece: string): (r: seq<seq<string>>)
    ensures r != [] && Last(r) != [] && Last(Last(r)) == piece
  {
    if groups != [] && Last(groups) != [] && GoesOn(toInt, Last(groups), piece)
      then groups[..|groups| - 1] + [Last(groups) + [piece]]
      else groups + [[piece]]
  }

  /** The groups of the first n pieces. */
  function Groups(toInt: ToInt, pieces: seq<string>, n: nat): (r: seq<seq<string>>)
    requires n <= |pieces|
    ensures n > 0 ==> r != [] && Last(r) != [] && Last(Last(r)) == pieces[n - 1]
  {
    if n == 0 then [] else Grown(toInt, Groups(toInt, pieces, n - 1), pieces[n - 1])
  }

  /** __format_episodes without the separator. */
  function RangeText(working: seq<string>): string
    requires working != []
  {
    if |working| == 1 then working[0] else working[0] + "-" + Last(working)
  }

  predicate NoneEmpty(groups: seq<seq<string>>) { forall i :: 0 <= i < |groups| ==> groups[i] != [] }

  function RangeTexts(groups: seq<seq<string>>): seq<string>
    requires NoneEmpty(groups)
  {
    seq(|groups|, i requires 0 <= i < |groups| => RangeText(groups[i]))
  }

  /** The printed ranges one after the other. */
  function Printed(texts: seq<string>): string {
    if texts == [] then [] else Printed(texts[..|texts| - 1]) + (if |texts| > 1 then ", " else "") + Last(texts)
  }

  lemma {:induction false} GroupsAreNotEmpty(toInt: ToInt, pieces: seq<string>, n: nat)
    requires n <= |pieces|
    ensures NoneEmpty(Groups(toInt, pieces, n))
  {
    if n > 0 { GroupsAreNotEmpty(toInt, pieces, n - 1); }
  }

  function EpisodesText(toInt: ToInt, pieces: seq<string>): string {
    GroupsAreNotEmpty(toInt, pieces, |pieces|);
    "E" + Printed(RangeTexts(Groups(toInt, pieces, |pieces|)))
  }

  /** Every piece is in exactly one group, in order. */
  function Flat(groups: seq<seq<string>>): seq<string> {
    if groups == [] then [] else Flat(groups[..|groups| - 1]) + Last(groups)
  }

  lemma {:induction false} FlatSnoc(front: seq<seq<string>>, last: seq<string>)
    ensures Flat(front + [last]) == Flat(front) + last
  {
    assert (front + [last])[..|front|] == front;
  }

  lemma {:induction false} FlatGrows(toInt: ToInt, groups: seq<seq<string>>, piece: string)
    ensures Flat(Grown(toInt, groups, piece)) == Flat(groups) + [piece]
  {
    FlatSnoc(groups, [piece]);
    if groups != [] {
      var front := groups[..|groups| - 1];
      FlatSnoc(front, Last(groups) + [piece]);
      Regroup(Flat(front), Last(groups), [piece]);
    }
  }

  lemma {:induction false} GroupsPartition(toInt: ToInt, pieces: seq<string>, n: nat)
    requires n <= |pieces|
    ensures Flat(Groups(toInt, pieces, n)) == pieces[..n]
  {
    if n > 0 {
      GroupsPartition(toInt, pieces, n - 1);
      FlatGrows(toInt, Groups(toInt, pieces, n - 1), pieces[n - 1]);
      TakeOneMore(pieces, n);
    }
  }

  lemma {:induction false} TakeOneMore(pieces: seq<string>, n: nat)
    requires 0 < n <= |pieces|
    ensures pieces[..n] == pieces[..n - 1] + [pieces[n - 1]]
  {
  }

  lemma {:induction false} FlatHas(groups: seq<seq<string>>, i: nat, j: nat)
    requires i < |groups| && j < |groups[i]|
    ensures groups[i][j] in Flat(groups)
  {
    var front := groups[..|groups| - 1];
    if i < |front| { FlatHas(front, i, j); }
  }

  lemma {:induction false} GroupHoldsPieces(toInt: ToInt, pieces: seq<string>, n: nat, i: nat, j: nat)
    requires n <= |pieces| && i < |Groups(toInt, pieces, n)| && j < |Groups(toInt, pieces, n)[i]|
    ensures Groups(toInt, pieces, n)[i][j] in pieces
  {
    GroupsPartition(toInt, pieces, n);
    FlatHas(Groups(toInt, pieces, n), i, j);
  }

  lemma {:induction false} PrintedIsNotEmpty(texts: seq<string>)
    requires texts != [] && texts[0] != ""
    ensures Printed(texts) != ""
  {
    if |texts| > 1 { PrintedIsNotEmpty(texts[..|texts| - 1]); }
  }

  // ---- the method ----

  method FormatEpisodes(formatted: string, working: seq<string>) returns (val: string)
    requires working != []
    ensures val == (if |formatted| > 1 then ", " else "") + RangeText(working)
  {
    val := "";
    if |formatted| > 1 { val := val + ", "; }
    if |working| == 1 { val := val + working[0]; } else { val := val + (working[0] + "-" + Last(working)); }
  }

  /** __format_tv_meta, where int('') raises as it does; None if int() raised. */
  method FormatTvMeta(toInt: ToInt, season: string, episodes: string) returns (r: Option<string>)
    requires toInt("").None?
    ensures
      var head, pieces := if season != "" then "S" + season else "", Split(episodes, ',');
      && (episodes == "" ==> r == Some(head))
      && (episodes != "" && |pieces| == 1 ==> r == Some(head + ("E" + episodes)))
      && (|pieces| > 1 ==> (r.Some? <==> AllInts(toInt, pieces)))
      && (|pieces| > 1 && r.Some? ==> r == Some(head + EpisodesText(toInt, pieces)))
  {
    var head := if season != "" then "S" + season else "";
    if episodes == "" { return Some(head); }
    var pieces := Split(episodes, ',');
    if |pieces| == 1 { return Some(head + ("E" + episodes)); }
    var text := FormatRanges(toInt, pieces);
    if text.None? { return None; }
    return Some(head + text.value);
  }

  predicate AllInts(toInt: ToInt, pieces: seq<string>) { forall i :: 0 <= i < |pieces| ==> toInt(pieces[i]).Some? }

  lemma {:induction false} IntsOneMore(toInt: ToInt, pieces: seq<string>, n: nat)
    requires n < |pieces| && AllInts(toInt, pieces[..n])
    ensures AllInts(toInt, pieces[..n + 1]) <==> toInt(pieces[n]).Some?
    ensures AllInts(toInt, pieces) ==> toInt(pieces[n]).Some?
  {
    assert pieces[..n + 1] == pieces[..n] + [pieces[n]];
    if AllInts(toInt, pieces[..n + 1]) { assert toInt(pieces[..n + 1][n]).Some?; }
  }

  method FormatRanges(toInt: ToInt, pieces: seq<string>) returns (r: Option<string>)
    requires |pieces| > 1 && toInt("").None?
    ensures r.Some? <==> AllInts(toInt, pieces)
    ensures r.Some? ==> r == Some(EpisodesText(toInt, pieces))
  {
    var formatted, working, lastValue := "E", [], 0;
    for n := 0 to |pieces|
      invariant AllInts(toInt, pieces[..n])
      invariant n == 0 ==> formatted == "E" && working == []
      invariant n > 0 ==> toInt(pieces[n - 1]) == Some(lastValue) && Formatted(toInt, pieces, n, formatted, working)
    {
      var ep := pieces[n];
      var value := toInt(ep);
      IntsOneMore(toInt, pieces, n);
      if |working| == 0 {
        if value.None? { return None; }
        working, lastValue := working + [ep], value.value;
        StartsFormatted(toInt, pieces);
      } else {
        if value.None? { return None; }
        if lastValue == value.value - 1 {
          GoesOnFormatted(toInt, pieces, n, formatted, working);
          working := working + [ep];
        } else {
          BreaksFormatted(toInt, pieces, n, formatted, working);
          var more := FormatEpisodes(formatted, working);
          formatted := formatted + more;
          working := [ep];
        }
        lastValue := value.value;
      }
    }
    assert pieces[..|pieces|] == pieces;
    if |working| > 0 {
      EndsFormatted(toInt, pieces, |pieces|, formatted, working);
      var more := FormatEpisodes(formatted, working);
      formatted := formatted + more;
    }
    return Some(formatted);
  }

  /** What has been printed of the first n pieces, and the group still open. */
  ghost predicate Formatted(toInt: ToInt, pieces: seq<string>, n: nat, formatted: string, working: seq<string>)
    requires n <= |pieces|
  {
    var groups := Groups(toInt, pieces, n);
    && groups != [] && Last(groups) == working && working != [] && n > 0 && Last(working) == pieces[n - 1]
    && NoneEmpty(groups)
    && formatted == "E" + Printed(RangeTexts(groups[..|groups| - 1]))
  }

  lemma {:induction false} StartsFormatted(toInt: ToInt, pieces: seq<string>)
    requires |pieces| > 0
    ensures Formatted(toInt, pieces, 1, "E", [pieces[0]])
  {
    assert Groups(toInt, pieces, 0) == [];
    EmptyFirst([[pieces[0]]]);
  }

  lemma {:induction false} GoesOnFormatted(
      toInt: ToInt, pieces: seq<string>, n: nat, formatted: string, working: seq<string>)
    requires 0 < n < |pieces| && Formatted(toInt, pieces, n, formatted, working) && GoesOn(toInt, working, pieces[n])
    ensures Formatted(toInt, pieces, n + 1, formatted, working + [pieces[n]])
  {
    var before, after := Groups(toInt, pieces, n), Groups(toInt, pieces, n + 1);
    assert after[..|after| - 1] == before[..|before| - 1];
    GroupsAreNotEmpty(toInt, pieces, n + 1);
  }

  /** The text with the open group closed. */
  function Closed(formatted: string, working: seq<string>): string
    requires working != []
  {
    formatted + ((if |formatted| > 1 then ", " else "") + RangeText(working))
  }

  lemma {:induction false} PrintedSnoc(texts: seq<string>, text: string)
    ensures Printed(texts + [text]) == Printed(texts) + (if texts != [] then ", " else "") + text
  {
    assert (texts + [text])[..|texts|] == texts;
  }

  lemma {:induction false} EndsFormatted(
      toInt: ToInt, pieces: seq<string>, n: nat, formatted: string, working: seq<string>)
    requires n <= |pieces| && Formatted(toInt, pieces, n, formatted, working) && AllInts(toInt, pieces)
        && toInt("").None?
    ensures var groups := Groups(toInt, pieces, n);
      && NoneEmpty(groups)
      && Closed(formatted, working) == "E" + Printed(RangeTexts(groups))
  {
    var groups := Groups(toInt, pieces, n);
    var front := groups[..|groups| - 1];
    var texts := RangeTexts(front);
    assert RangeTexts(groups) == texts + [RangeText(working)];
    PrintedSnoc(texts, RangeText(working));
    if texts == [] {
      assert Printed(texts) == "";
    } else {
      GroupHoldsPieces(toInt, pieces, n, 0, 0);
      assert texts[0] != "";
      PrintedIsNotEmpty(texts);
    }
    ClosedText(Printed(texts), working);
  }

  lemma {:induction false} ClosedText(printed: string, working: seq<string>)
    requires working != []
    ensures Closed("E" + printed, working) == "E" + (printed + (if printed != "" then ", " else "")
        + RangeText(working))
  {
    var sep, text := if printed != "" then ", " else "", RangeText(working);
    Regroup("E", printed, sep + text);
    Regroup(printed, sep, text);
  }

  lemma {:induction false} BreaksFormatted(
      toInt: ToInt, pieces: seq<string>, n: nat, formatted: string, working: seq<string>)
    requires 0 < n < |pieces| && Formatted(toInt, pieces, n, formatted, working) && !GoesOn(toInt, working, pieces[n])
    requires AllInts(toInt, pieces[..n]) && toInt("").None?
    ensures Formatted(toInt, pieces, n + 1, Closed(formatted, working), [pieces[n]])
  {
    var before, after := Groups(toInt, pieces, n), Groups(toInt, pieces, n + 1);
    assert after == before + [[pieces[n]]];
    assert after[..|after| - 1] == before;
    GroupsPrefix(toInt, pieces, n);
    EndsFormatted(toInt, pieces[..n], n, formatted, working);
  }

  lemma {:induction false} GroupsPrefix(toInt: ToInt, pieces: seq<string>, n: nat)
    requires n <= |pieces|
    ensures Groups(toInt, pieces[..n], n) == Groups(toInt, pieces, n)
  {
    GroupsLocal(toInt, pieces, pieces[..n], n);
  }

  lemma {:induction false} GroupsLocal(toInt: ToInt, a: seq<string>, b: seq<string>, n: nat)
    requires n <= |a| && n <= |b| && forall i :: 0 <= i < n ==> a[i] == b[i]
    ensures Groups(toInt, a, n) == Groups(toInt, b, n)
  {
    if n > 0 { GroupsLocal(toInt, a, b, n - 1); }
  }

  // ---- reading the ranges back ----

  /** int() on digits. */
  function DigitsToInt(s: string): Option<int> { if IsDigits(s) then Some(ReadNat(s)) else None }

  datatype Range = Range(first: int, last: int)

  /** A printed range: a number, or two with a dash, after an optional space. */
  function ReadRange(text: string): Range {
    var t := if text != [] && text[0] == ' ' then text[1..] else text;
    var ends := Split(t, '-');
    Range(ReadNat(ends[0]), ReadNat(ends[|ends| - 1]))
  }

  function ReadRanges(text: string): seq<Range> {
    var texts := Split(text, ',');
    seq(|texts|, i requires 0 <= i < |texts| => ReadRange(texts[i]))
  }

  function Count(first: int, last: int): seq<int>
    decreases last - first
  {
    if first > last then [] else Count(first, last - 1) + [last]
  }

  /** The numbers some ranges stand for. */
  function Expand(ranges: seq<Range>): seq<int> {
    if ranges == [] then [] else Expand(ranges[..|ranges| - 1]) + Count(Last(ranges).first, Last(ranges).last)
  }

  function Values(pieces: seq<string>): seq<int> { seq(|pieces|, i requires 0 <= i < |pieces| => ReadNat(pieces[i])) }

  predicate AllDigits(pieces: seq<string>) { forall i :: 0 <= i < |pieces| ==> IsDigits(pieces[i]) }

  /** A group counts up one by one. */
  predicate CountsUp(group: seq<string>) {
    group != [] && AllDigits(group) && forall i :: 0 <= i < |group| - 1 ==>
        ReadNat(group[i]) + 1 == ReadNat(group[i + 1])
  }

  /** One group after another could not have gone on with it. */
  predicate Apart(group: seq<string>, next: seq<string>)
    requires group != [] && next != []
  {
    ReadNat(Last(group)) + 1 != ReadNat(next[0])
  }

  /** The groups count up, and none could go on with the one after it. */
  predicate GroupsAreMaximal(groups: seq<seq<string>>) {
    && (forall i :: 0 <= i < |groups| ==> CountsUp(groups[i]))
    && (forall i :: 0 <= i < |groups| - 1 ==> Apart(groups[i], groups[i + 1]))
  }

  lemma {:induction false} CountsUpMore(group: seq<string>, piece: string)
    requires CountsUp(group) && IsDigits(piece) && ReadNat(Last(group)) + 1 == ReadNat(piece)
    ensures CountsUp(group + [piece])
  {
  }

  lemma {:induction false} MaximalSnoc(front: seq<seq<string>>, last: seq<string>)
    requires GroupsAreMaximal(front) && CountsUp(last)
        && (front != [] ==> CountsUp(Last(front)) && Apart(Last(front), last))
    ensures GroupsAreMaximal(front + [last])
  {
  }

  lemma {:induction false} MaximalFront(front: seq<seq<string>>, last: seq<string>)
    requires GroupsAreMaximal(front + [last])
    ensures GroupsAreMaximal(front) && CountsUp(last)
        && (front != [] ==> CountsUp(Last(front)) && Apart(Last(front), last))
  {
    var groups := front + [last];
    assert groups[|front|] == last;
    forall i | 0 <= i < |front|
      ensures front[i] == groups[i] && CountsUp(front[i])
    {
    }
    if front != [] { assert groups[|front| - 1] == Last(front); }
  }

  lemma {:induction false} MaximalExtends(front: seq<seq<string>>, last: seq<string>, piece: string)
    requires GroupsAreMaximal(front + [last]) && IsDigits(piece) && CountsUp(last)
        && ReadNat(Last(last)) + 1 == ReadNat(piece)
    ensures GroupsAreMaximal(front + [last + [piece]])
  {
    MaximalFront(front, last);
    CountsUpMore(last, piece);
    MaximalSnoc(front, last + [piece]);
  }

  lemma {:induction false} MaximalGrows(groups: seq<seq<string>>, piece: string)
    requires GroupsAreMaximal(groups) && IsDigits(piece)
    ensures GroupsAreMaximal(Grown(DigitsToInt, groups, piece))
  {
    assert CountsUp([piece]);
    if groups == [] {
      MaximalSnoc([], [piece]);
    } else {
      var front, last := groups[..|groups| - 1], Last(groups);
      assert groups == front + [last];
      MaximalFront(front, last);
      if GoesOn(DigitsToInt, last, piece) {
        MaximalExtends(front, last, piece);
      } else {
        assert DigitsToInt(Last(last)) == Some(ReadNat(Last(last)));
        MaximalSnoc(groups, [piece]);
      }
    }
  }

  lemma {:induction false} GroupsOfDigits(pieces: seq<string>, n: nat)
    requires n <= |pieces| && AllDigits(pieces)
    ensures GroupsAreMaximal(Groups(DigitsToInt, pieces, n))
  {
    if n > 0 {
      GroupsOfDigits(pieces, n - 1);
      MaximalGrows(Groups(DigitsToInt, pieces, n - 1), pieces[n - 1]);
    }
  }

  lemma {:induction false} CountIsValues(group: seq<string>)
    requires CountsUp(group)
    ensures Count(ReadNat(group[0]), ReadNat(Last(group))) == Values(group)
    ensures ReadNat(Last(group)) == ReadNat(group[0]) + |group| - 1
    decreases |group|
  {
    var first, last := ReadNat(group[0]), ReadNat(Last(group));
    if |group| == 1 {
      assert Count(first, first - 1) == [];
    } else {
      var front := group[..|group| - 1];
      CountIsValues(front);
      assert Values(group) == Values(front) + [last];
    }
  }

  predicate ReadsAs(text: string, group: seq<string>)
    requires group != []
  {
    ReadRange(text) == Range(ReadNat(group[0]), ReadNat(Last(group)))
  }

  lemma {:induction false} DigitsAreFree(s: string)
    requires IsDigits(s)
    ensures Free(s, '-') && Free(s, ',') && s[0] != ' '
  {
  }

  lemma {:induction false} RangeReads(group: seq<string>)
    requires CountsUp(group)
    ensures ReadsAs(RangeText(group), group) && ReadsAs(" " + RangeText(group), group)
    ensures Free(RangeText(group), ',') && Free(" " + RangeText(group), ',')
  {
    var first, last, text := group[0], Last(group), RangeText(group);
    DigitsAreFree(first);
    DigitsAreFree(last);
    assert (" " + text)[1..] == text;
    if |group| == 1 {
      SplitFree(first, '-');
    } else {
      SplitPiece(first, last, '-');
      SplitFree(last, '-');
      assert text == first + ['-'] + last;
      assert text[0] == first[0];
    }
  }

  /** The pieces between the commas. */
  function Spaced(texts: seq<string>): seq<string> {
    seq(|texts|, i requires 0 <= i < |texts| => if i == 0 then texts[0] else " " + texts[i])
  }

  lemma {:induction false} JoinSnoc(pieces: seq<string>, last: string)
    requires pieces != []
    ensures Join(pieces + [last], ",") == Join(pieces, ",") + ("," + last)
    decreases |pieces|
  {
    if |pieces| == 1 {
      assert (pieces + [last])[1..] == [last];
    } else {
      assert (pieces + [last])[1..] == pieces[1..] + [last];
      JoinSnoc(pieces[1..], last);
      Regroup(pieces[0] + ",", Join(pieces[1..], ","), "," + last);
    }
  }

  lemma {:induction false} PrintedIsJoined(texts: seq<string>)
    requires texts != []
    ensures Printed(texts) == Join(Spaced(texts), ",")
    decreases |texts|
  {
    var front, last := texts[..|texts| - 1], Last(texts);
    if front == [] {
      assert Spaced(texts) == [last];
      assert Printed(texts) == "" + "" + last;
    } else {
      PrintedIsJoined(front);
      assert Spaced(texts) == Spaced(front) + [" " + last];
      JoinSnoc(Spaced(front), " " + last);
      assert "," + (" " + last) == ", " + last;
      Regroup(Printed(front), ", ", last);
    }
  }

  function RangesOf(groups: seq<seq<string>>): seq<Range>
    requires NoneEmpty(groups)
  {
    seq(|groups|, i requires 0 <= i < |groups| => Range(ReadNat(groups[i][0]), ReadNat(Last(groups[i]))))
  }

  /** What is printed for some groups reads back as their ranges. */
  lemma {:induction false} PrintedReads(groups: seq<seq<string>>)
    requires groups != [] && NoneEmpty(groups) && forall i :: 0 <= i < |groups| ==> CountsUp(groups[i])
    ensures ReadRanges(Printed(RangeTexts(groups))) == RangesOf(groups)
  {
    var texts := RangeTexts(groups);
    var spaced := Spaced(texts);
    forall i | 0 <= i < |groups|
      ensures Free(spaced[i], ',') && ReadsAs(spaced[i], groups[i])
    {
      RangeReads(groups[i]);
    }
    PrintedIsJoined(texts);
    SplitJoin(spaced, ',');
  }

  lemma {:induction false} ExpandIsFlat(groups: seq<seq<string>>)
    requires NoneEmpty(groups) && forall i :: 0 <= i < |groups| ==> CountsUp(groups[i])
    ensures Expand(RangesOf(groups)) == Values(Flat(groups))
    decreases |groups|
  {
    if groups != [] {
      var front, last := groups[..|groups| - 1], Last(groups);
      ExpandIsFlat(front);
      CountIsValues(last);
      var ranges := RangesOf(groups);
      assert ranges[..|ranges| - 1] == RangesOf(front);
      assert Values(Flat(front) + last) == Values(Flat(front)) + Values(last);
    }
  }

  predicate NotJoinable(ranges: seq<Range>) {
    forall k :: 0 <= k < |ranges| - 1 ==> ranges[k].last + 1 != ranges[k + 1].first
  }

  lemma {:induction false} RangesAreApart(groups: seq<seq<string>>)
    requires NoneEmpty(groups) && GroupsAreMaximal(groups)
    ensures NotJoinable(RangesOf(groups))
  {
    forall k | 0 <= k < |groups| - 1
      ensures RangesOf(groups)[k].last + 1 != RangesOf(groups)[k + 1].first
    {
      assert Apart(groups[k], groups[k + 1]);
    }
  }

  lemma {:induction false} GroupsReadBack(pieces: seq<string>, groups: seq<seq<string>>)
    requires groups != [] && NoneEmpty(groups) && GroupsAreMaximal(groups) && Flat(groups) == pieces
    ensures var ranges := ReadRanges(Printed(RangeTexts(groups)));
        Expand(ranges) == Values(pieces)
        && NotJoinable(ranges)
  {
    PrintedReads(groups);
    ExpandIsFlat(groups);
    RangesAreApart(groups);
  }

  /** The printed ranges expand to the very numbers listed, and no two neighbours could be joined. */
  lemma {:induction false} RangesReadBack(pieces: seq<string>)
    requires |pieces| >= 2 && AllDigits(pieces)
    ensures var text := EpisodesText(DigitsToInt, pieces);
      && text != [] && text[0] == 'E' && Expand(ReadRanges(text[1..])) == Values(pieces)
          && NotJoinable(ReadRanges(text[1..]))
  {
    var groups := Groups(DigitsToInt, pieces, |pieces|);
    GroupsAreNotEmpty(DigitsToInt, pieces, |pieces|);
    GroupsOfDigits(pieces, |pieces|);
    GroupsPartition(DigitsToInt, pieces, |pieces|);
    assert pieces[..|pieces|] == pieces;
    GroupsReadBack(pieces, groups);
    DropPrefix("E", Printed(RangeTexts(groups)));
  }

  function Decimals(ns: seq<nat>): seq<string> { seq(|ns|, i requires 0 <= i < |ns| => Decimal(ns[i])) }

  /** For any list of two or more numbers joined by commas, the printed ranges expand to that list. */
  lemma {:induction false} EpisodesRoundTrip(ns: seq<nat>)
    requires |ns| >= 2
    ensures var pieces := Split(Join(Decimals(ns), ","), ',');
      && pieces == Decimals(ns) && AllInts(DigitsToInt, pieces) && DigitsToInt("").None?
      && EpisodesText(DigitsToInt, pieces) != [] && Expand(ReadRanges(EpisodesText(DigitsToInt, pieces)[1..])) == ns
  {
    var pieces := Decimals(ns);
    forall i | 0 <= i < |pieces|
      ensures IsDigits(pieces[i]) && Free(pieces[i], ',') && ReadNat(pieces[i]) == ns[i]
    {
      ReadDecimal(ns[i]);
      DigitsAreFree(pieces[i]);
    }
    SplitJoin(pieces, ',');
    RangesReadBack(pieces);
    assert Values(pieces) == ns;
  }
}
