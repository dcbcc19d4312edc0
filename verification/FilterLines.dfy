/** Lines of filter text, as equaliser software exports them, and the pattern that reads them. */
module FilterLines {
  import opened Common
  import opened Text

  /** What is left to read after a piece of the pattern matched. */
  datatype Scan<T> = Found(value: T, rest: string) | Nope

  /** What \s matches. */
  predicate IsSpace(c: char) {
    || c == ' ' || '\U{9}' <= c <= '\U{d}' || '\U{1c}' <= c <= '\U{1f}' || c == '\U{85}' || c == '\U{a0}'
    || c == '\U{1680}' || '\U{2000}' <= c <= '\U{200a}' || c == '\U{2028}' || c == '\U{2029}' || c == '\U{202f}'
    || c == '\U{205f}' || c == '\U{3000}'
  }

  function DropSpaces(s: string): string { if s == [] || !IsSpace(s[0]) then s else DropSpaces(s[1..]) }

  /** \s+ */
  function Spaces(s: string): Scan<()> { if s == [] || !IsSpace(s[0]) then Nope else Found((), DropSpaces(s)) }

  function Literal(word: string, s: string): Scan<()> { if word <= s then Found((), s[|word|..]) else Nope }

  function LeadingDigits(s: string): string { if s == [] || !IsDigit(s[0]) then [] else [s[0]] + LeadingDigits(s[1..]) }

  /** \d+ */
  function Digits(s: string): Scan<string> {
    var d := LeadingDigits(s);
    if d == [] || !(d <= s) then Nope else Found(d, s[|d|..])
  }

  /** \d+\.\d+ */
  function Fraction(s: string): Scan<string> {
    match Digits(s)
    case Nope => Nope
    case Found(whole, r) =>
      match Literal(".", r)
      case Nope => Nope
      case Found(_, r') =>
        match Digits(r')
        case Nope => Nope
        case Found(part, r'') => Found(whole + ("." + part), r'')
  }

  /** -?\d+\.\d+ */
  function SignedFraction(s: string): Scan<string> {
    match Literal("-", s)
    case Nope => Fraction(s)
    case Found(_, r) =>
      match Fraction(r)
      case Nope => Nope
      case Found(v, r') => Found("-" + v, r')
  }

  /** name\s+(number) */
  function Field(name: string, signed: bool, s: string): Scan<string> {
    match Literal(name, s)
    case Nope => Nope
    case Found(_, r) =>
      match Spaces(r)
      case Nope => Nope
      case Found(_, r') => if signed then SignedFraction(r') else Fraction(r')
  }

  /** \s+unit\s+ */
  function Unit(unit: string, s: string): Scan<()> {
    match Spaces(s)
    case Nope => Nope
    case Found(_, r) =>
      match Literal(unit, r)
      case Nope => Nope
      case Found(_, r') => Spaces(r')
  }

  /** One of some words, the first that fits, and the spaces after it. */
  function OneOf(words: seq<string>, s: string): Scan<string> {
    if words == [] then Nope else
    match Literal(words[0], s)
    case Nope => OneOf(words[1..], s)
    case Found(_, r) =>
      match Spaces(r)
      case Nope => Nope
      case Found(_, r') => Found(words[0], r')
  }

  const KINDS := ["PEQ", "PK", "LS", "HS"]
  const SWITCHES := ["ON", "OFF"]

  /** The groups of the pattern; the numbers stay as written. */
  datatype FilterLine = FilterLine(number: int, on: bool, kind: string, fc: string, gain: string, q: string)

  /** Filter\s+(\d+):\s+ */
  function Head(s: string): Scan<int> {
    match Literal("Filter", s)
    case Nope => Nope
    case Found(_, r) =>
      match Spaces(r)
      case Nope => Nope
      case Found(_, r') =>
        match Digits(r')
        case Nope => Nope
        case Found(d, r'') =>
          match Literal(":", r'')
          case Nope => Nope
          case Found(_, r3) =>
            match Spaces(r3)
            case Nope => Nope
            case Found(_, r4) => Found(ReadNat(d), r4)
  }

  /** Fc\s+(\d+\.\d+)\s+Hz\s+Gain\s+(-?\d+\.\d+)\s+dB\s+Q\s+(\d+\.\d+) */
  function Numbers(s: string): Scan<(string, string, string)> {
    match Field("Fc", false, s)
    case Nope => Nope
    case Found(fc, r) =>
      match Unit("Hz", r)
      case Nope => Nope
      case Found(_, r') =>
        match Field("Gain", true, r')
        case Nope => Nope
        case Found(gain, r'') =>
          match Unit("dB", r'')
          case Nope => Nope
          case Found(_, r3) =>
            match Field("Q", false, r3)
            case Nope => Nope
            case Found(q, r4) => Found((fc, gain, q), r4)
  }

  /** re.match(FILTER_PATTERN, line): whatever follows the pattern is ignored. */
  function MatchLine(line: string): Option<FilterLine> {
    match Head(line)
    case Nope => None
    case Found(number, r) =>
      match OneOf(SWITCHES, r)
      case Nope => None
      case Found(switch, r') =>
        match OneOf(KINDS, r')
        case Nope => None
        case Found(kind, r'') =>
          match Numbers(r'')
          case Nope => None
          case Found(v, _) => Some(FilterLine(number, switch == "ON", kind, v.0, v.1, v.2))
  }

  // ---- written lines are read back ----

  predicate StartsWithSpace(s: string) { s != [] && IsSpace(s[0]) }

  predicate StartsWithDigit(s: string) { s != [] && IsDigit(s[0]) }

  /** One space or more. */
  predicate IsGap(s: string) { s != [] && forall i :: 0 <= i < |s| ==> IsSpace(s[i]) }

  lemma {:induction false} SpaceRead(gap: string, rest: string)
    requires IsGap(gap) && !StartsWithSpace(rest)
    ensures Spaces(gap + rest) == Found((), rest)
  {
    if |gap| == 1 {
      assert (gap + rest)[1..] == rest && DropSpaces(rest) == rest;
    } else {
      assert (gap + rest)[1..] == gap[1..] + rest;
      SpaceRead(gap[1..], rest);
    }
  }

  lemma {:induction false} WordRead(word: string, rest: string)
    ensures Literal(word, word + rest) == Found((), rest)
  {
    DropPrefix(word, rest);
  }

  lemma {:induction false} LeadingDigitsRead(d: string, rest: string)
    requires (forall i :: 0 <= i < |d| ==> IsDigit(d[i])) && !StartsWithDigit(rest)
    ensures LeadingDigits(d + rest) == d
  {
    if d == [] {
      EmptyFirst(rest);
    } else {
      assert (d + rest)[1..] == d[1..] + rest;
      LeadingDigitsRead(d[1..], rest);
    }
  }

  lemma {:induction false} DigitsRead(d: string, rest: string)
    requires IsDigits(d) && !StartsWithDigit(rest)
    ensures Digits(d + rest) == Found(d, rest)
  {
    LeadingDigitsRead(d, rest);
    DropPrefix(d, rest);
  }

  lemma {:induction false} FractionRead(whole: string, part: string, rest: string)
    requires IsDigits(whole) && IsDigits(part) && !StartsWithDigit(rest)
    ensures Fraction(whole + ("." + (part + rest))) == Found(whole + ("." + part), rest)
  {
    DigitsRead(whole, "." + (part + rest));
    WordRead(".", part + rest);
    DigitsRead(part, rest);
  }

  /** A number as the pattern wants it. */
  datatype Number = Number(negative: bool, whole: string, part: string) {
    predicate Valid() { IsDigits(whole) && IsDigits(part) }

    function Text(): string { (if negative then "-" else "") + (whole + ("." + part)) }
  }

  lemma {:induction false} SignedRead(v: Number, rest: string)
    requires v.Valid() && !StartsWithDigit(rest)
    ensures SignedFraction(v.Text() + rest) == Found(v.Text(), rest)
    ensures !v.negative ==> Fraction(v.Text() + rest) == Found(v.Text(), rest)
  {
    var body := v.whole + ("." + (v.part + rest));
    var digits := v.whole + ("." + v.part);
    assert digits + rest == body by {
      Regroup(v.whole, "." + v.part, rest);
      Regroup(".", v.part, rest);
    }
    FractionRead(v.whole, v.part, rest);
    if v.negative {
      Regroup("-", digits, rest);
      WordRead("-", body);
    } else {
      EmptyFirst(digits);
      assert body[0] == v.whole[0];
    }
  }

  lemma {:induction false} FieldRead(name: string, signed: bool, gap: string, v: Number, rest: string)
    requires IsGap(gap) && v.Valid() && (v.negative ==> signed) && !StartsWithDigit(rest)
    ensures Field(name, signed, name + (gap + (v.Text() + rest))) == Found(v.Text(), rest)
  {
    WordRead(name, gap + (v.Text() + rest));
    assert !StartsWithSpace(v.Text() + rest) by { NumberStarts(v, rest); }
    SpaceRead(gap, v.Text() + rest);
    SignedRead(v, rest);
  }

  lemma {:induction false} NumberStarts(v: Number, rest: string)
    requires v.Valid()
    ensures !StartsWithSpace(v.Text() + rest)
  {
    assert (v.Text() + rest)[0] == if v.negative then '-' else v.whole[0];
  }

  lemma {:induction false} UnitRead(before: string, unit: string, after: string, rest: string)
    requires IsGap(before) && IsGap(after) && unit != [] && !IsSpace(unit[0]) && !StartsWithSpace(rest)
    ensures Unit(unit, before + (unit + (after + rest))) == Found((), rest)
  {
    SpaceRead(before, unit + (after + rest));
    WordRead(unit, after + rest);
    SpaceRead(after, rest);
  }

  /** The spaces of a line, in order. */
  datatype Gaps = Gaps(filter: string, head: string, switch: string, kind: string, fc: string, hz: string, hz': string,
                       gain: string, db: string, db': string, q: string)
  {
    predicate Valid() {
      && IsGap(filter) && IsGap(head) && IsGap(switch) && IsGap(kind) && IsGap(fc) && IsGap(hz) && IsGap(hz')
      && IsGap(gain) && IsGap(db) && IsGap(db') && IsGap(q)
    }
  }

  function QText(g: Gaps, q: Number, tail: string): string { "Q" + (g.q + (q.Text() + tail)) }

  function GainText(g: Gaps, gain: Number, q: Number, tail: string): string {
    "Gain" + (g.gain + (gain.Text() + (g.db + ("dB" + (g.db' + QText(g, q, tail))))))
  }

  /** The three numbers with their names and units. */
  function NumbersText(g: Gaps, fc: Number, gain: Number, q: Number, tail: string): string {
    "Fc" + (g.fc + (fc.Text() + (g.hz + ("Hz" + (g.hz' + GainText(g, gain, q, tail))))))
  }

  lemma {:induction false} NumbersRead(g: Gaps, fc: Number, gain: Number, q: Number, tail: string)
    requires g.Valid() && fc.Valid() && gain.Valid() && q.Valid() && !fc.negative && !q.negative
        && !StartsWithDigit(tail)
    ensures Numbers(NumbersText(g, fc, gain, q, tail)) == Found((fc.Text(), gain.Text(), q.Text()), tail)
  {
    var qs := QText(g, q, tail);
    var gains := GainText(g, gain, q, tail);
    var db := g.db + ("dB" + (g.db' + qs));
    var hz := g.hz + ("Hz" + (g.hz' + gains));
    GapIsNoDigit(g.db, "dB" + (g.db' + qs));
    GapIsNoDigit(g.hz, "Hz" + (g.hz' + gains));
    FieldRead("Fc", false, g.fc, fc, hz);
    UnitRead(g.hz, "Hz", g.hz', gains);
    FieldRead("Gain", true, g.gain, gain, db);
    UnitRead(g.db, "dB", g.db', qs);
    FieldRead("Q", false, g.q, q, tail);
  }

  lemma {:induction false} GapIsNoDigit(gap: string, rest: string)
    requires IsGap(gap)
    ensures !StartsWithDigit(gap + rest)
  {
    assert (gap + rest)[0] == gap[0];
  }

  lemma {:induction false} HeadRead(g: Gaps, digits: string, rest: string)
    requires g.Valid() && IsDigits(digits) && !StartsWithSpace(rest)
    ensures Head("Filter" + (g.filter + (digits + (":" + (g.head + rest))))) == Found(ReadNat(digits), rest)
  {
    var colon := ":" + (g.head + rest);
    WordRead("Filter", g.filter + (digits + colon));
    assert (digits + colon)[0] == digits[0];
    SpaceRead(g.filter, digits + colon);
    DigitsRead(digits, colon);
    WordRead(":", g.head + rest);
    SpaceRead(g.head, rest);
  }

  lemma {:induction false} SwitchRead(on: bool, gap: string, rest: string)
    requires IsGap(gap) && !StartsWithSpace(rest)
    ensures OneOf(SWITCHES, (if on then "ON" else "OFF") + (gap + rest)) == Found(if on then "ON" else "OFF", rest)
  {
    SpaceRead(gap, rest);
    if on {
      WordRead("ON", gap + rest);
    } else {
      WordRead("OFF", gap + rest);
      assert "ON"[1] != ("OFF" + (gap + rest))[1];
      assert SWITCHES[1..] == ["OFF"];
    }
  }

  lemma {:induction false} PrefixFits(word: string, s: string)
    requires |word| >= 2
    ensures word <= s ==> word[..2] == s[..2]
  {
  }

  lemma {:induction false} OneOfReads(words: seq<string>, k: nat, gap: string, rest: string)
    requires k < |words| && IsGap(gap) && !StartsWithSpace(rest)
    requires forall i, j :: 0 <= i < j < |words| ==>
        |words[i]| >= 2 && |words[j]| >= 2 && words[i][..2] != words[j][..2]
    ensures OneOf(words, words[k] + (gap + rest)) == Found(words[k], rest)
  {
    var s := words[k] + (gap + rest);
    SpaceRead(gap, rest);
    if k == 0 {
      WordRead(words[0], gap + rest);
    } else {
      PrefixFits(words[0], s);
      assert s[..2] == words[k][..2];
      OneOfReads(words[1..], k - 1, gap, rest);
    }
  }

  /** A line as the pattern wants it. */
  function LineText(g: Gaps, digits: string, on: bool, kind: string, numbers: string): string {
    "Filter" + (g.filter + (digits + (":" + (g.head +
      ((if on then "ON" else "OFF") + (g.switch + (kind + (g.kind + numbers))))))))
  }

  /** The pattern reads a written line back, however many spaces it has between its words and whatever follows it. */
  lemma {:induction false} LineIsReadBack(
      g: Gaps, digits: string, on: bool, k: nat, fc: Number, gain: Number, q: Number, tail: string)
    requires g.Valid() && IsDigits(digits) && k < 4
    requires fc.Valid() && gain.Valid() && q.Valid() && !fc.negative && !q.negative && !StartsWithDigit(tail)
    ensures MatchLine(LineText(g, digits, on, KINDS[k], NumbersText(g, fc, gain, q, tail))) ==
            Some(FilterLine(ReadNat(digits), on, KINDS[k], fc.Text(), gain.Text(), q.Text()))
  {
    var numbers := NumbersText(g, fc, gain, q, tail);
    var kinds := KINDS[k] + (g.kind + numbers);
    var switch := (if on then "ON" else "OFF") + (g.switch + kinds);
    assert !StartsWithSpace(numbers) && !StartsWithSpace(kinds) && !StartsWithSpace(switch) by {
      assert numbers[0] == 'F' && kinds[0] == KINDS[k][0] && switch[0] == 'O';
    }
    HeadRead(g, digits, switch);
    SwitchRead(on, g.switch, kinds);
    KindsDiffer();
    OneOfReads(KINDS, k, g.kind, numbers);
    NumbersRead(g, fc, gain, q, tail);
  }

  lemma {:induction false} KindsDiffer()
    ensures forall i, j :: 0 <= i < j < |KINDS| ==> |KINDS[i]| >= 2 && |KINDS[j]| >= 2 && KINDS[i][..2] != KINDS[j][..2]
  {
    assert "PEQ"[..2] == "PE" && "PK"[..2] == "PK" && "LS"[..2] == "LS" && "HS"[..2] == "HS";
    assert "PE"[1] != "PK"[1] && "PE"[0] != "LS"[0] && "LS"[0] != "HS"[0] && "PE"[0] != "HS"[0];
  }

  // ---- only written lines are read ----

  lemma {:induction false} SpacesFound(s: string) returns (gap: string)
    requires Spaces(s).Found?
    ensures IsGap(gap) && s == gap + Spaces(s).rest && !StartsWithSpace(Spaces(s).rest)
  {
    assert s == [s[0]] + s[1..];
    if StartsWithSpace(s[1..]) {
      var more := SpacesFound(s[1..]);
      gap := [s[0]] + more;
      Regroup([s[0]], more, Spaces(s).rest);
    } else {
      gap := [s[0]];
      assert DropSpaces(s) == s[1..];
    }
  }

  lemma {:induction false} WordFound(word: string, s: string)
    requires Literal(word, s).Found?
    ensures s == word + Literal(word, s).rest
  {
  }

  lemma {:induction false} DigitsFound(s: string)
    requires Digits(s).Found?
    ensures IsDigits(Digits(s).value) && s == Digits(s).value + Digits(s).rest && !StartsWithDigit(Digits(s).rest)
  {
    LeadingAreDigits(s);
  }

  lemma {:induction false} LeadingAreDigits(s: string)
    ensures forall i :: 0 <= i < |LeadingDigits(s)| ==> IsDigit(LeadingDigits(s)[i])
    ensures LeadingDigits(s) <= s && !StartsWithDigit(s[|LeadingDigits(s)|..])
  {
    if StartsWithDigit(s) {
      LeadingAreDigits(s[1..]);
      assert s == [s[0]] + s[1..];
    }
  }

  lemma {:induction false} FractionFound(s: string, negative: bool) returns (v: Number)
    requires Fraction(s).Found?
    ensures v.Valid() && v.negative == negative && v.Text() == (if negative then "-" else "") + Fraction(s).value
    ensures s == Fraction(s).value + Fraction(s).rest && !StartsWithDigit(Fraction(s).rest)
  {
    var whole := Digits(s);
    DigitsFound(s);
    WordFound(".", whole.rest);
    var part := Digits(Literal(".", whole.rest).rest);
    DigitsFound(Literal(".", whole.rest).rest);
    v := Number(negative, whole.value, part.value);
    Regroup(whole.value, "." + part.value, part.rest);
    Regroup(".", part.value, part.rest);
  }

  lemma {:induction false} FieldFound(name: string, signed: bool, s: string) returns (gap: string, v: Number)
    requires Field(name, signed, s).Found?
    ensures IsGap(gap) && v.Valid() && (v.negative ==> signed) && v.Text() == Field(name, signed, s).value
    ensures s == name + (gap + (v.Text() + Field(name, signed, s).rest))
        && !StartsWithDigit(Field(name, signed, s).rest)
  {
    WordFound(name, s);
    var r := Literal(name, s).rest;
    gap := SpacesFound(r);
    var n := Spaces(r).rest;
    if signed && Literal("-", n).Found? {
      WordFound("-", n);
      v := FractionFound(Literal("-", n).rest, true);
      Regroup("-", Fraction(Literal("-", n).rest).value, Fraction(Literal("-", n).rest).rest);
    } else {
      v := FractionFound(n, false);
      EmptyFirst(Fraction(n).value);
    }
  }

  lemma {:induction false} UnitFound(unit: string, s: string) returns (before: string, after: string)
    requires Unit(unit, s).Found?
    ensures IsGap(before) && IsGap(after) && s == before + (unit + (after + Unit(unit, s).rest))
  {
    before := SpacesFound(s);
    WordFound(unit, Spaces(s).rest);
    after := SpacesFound(Literal(unit, Spaces(s).rest).rest);
  }

  lemma {:induction false} OneOfFound(words: seq<string>, s: string) returns (k: nat, gap: string)
    requires OneOf(words, s).Found?
    ensures k < |words| && IsGap(gap) && OneOf(words, s).value == words[k]
        && s == words[k] + (gap + OneOf(words, s).rest)
  {
    if Literal(words[0], s).Found? {
      k := 0;
      WordFound(words[0], s);
      gap := SpacesFound(Literal(words[0], s).rest);
    } else {
      k, gap := OneOfFound(words[1..], s);
      k := k + 1;
    }
  }

  lemma {:induction false} HeadFound(s: string) returns (filter: string, digits: string, head: string)
    requires Head(s).Found?
    ensures IsGap(filter) && IsDigits(digits) && IsGap(head) && Head(s).value == ReadNat(digits)
    ensures s == "Filter" + (filter + (digits + (":" + (head + Head(s).rest))))
  {
    WordFound("Filter", s);
    var r := Literal("Filter", s).rest;
    filter := SpacesFound(r);
    DigitsFound(Spaces(r).rest);
    digits := Digits(Spaces(r).rest).value;
    var colon := Digits(Spaces(r).rest).rest;
    WordFound(":", colon);
    head := SpacesFound(Literal(":", colon).rest);
  }

  lemma {:induction false} NumbersFound(s: string, start: Gaps) returns (g: Gaps, fc: Number, gain: Number, q: Number)
    requires Numbers(s).Found? && IsGap(start.filter) && IsGap(start.head) && IsGap(start.switch) && IsGap(start.kind)
    ensures g.Valid() && g == start.(fc := g.fc, hz := g.hz, hz' := g.hz', gain := g.gain, db := g.db, db' := g.db',
        q := g.q)
    ensures fc.Valid() && gain.Valid() && q.Valid() && !fc.negative && !q.negative && !StartsWithDigit(Numbers(s).rest)
    ensures Numbers(s).value == (fc.Text(), gain.Text(), q.Text())
    ensures s == NumbersText(g, fc, gain, q, Numbers(s).rest)
  {
    var a, b, c, d, e, f, h;
    a, fc := FieldFound("Fc", false, s);
    var r := Field("Fc", false, s).rest;
    b, c := UnitFound("Hz", r);
    r := Unit("Hz", r).rest;
    d, gain := FieldFound("Gain", true, r);
    r := Field("Gain", true, r).rest;
    e, f := UnitFound("dB", r);
    r := Unit("dB", r).rest;
    h, q := FieldFound("Q", false, r);
    g := Gaps(start.filter, start.head, start.switch, start.kind, a, b, c, d, e, f, h);
  }

  /** And reads nothing else: a line that matches is written so, with the values read. */
  lemma {:induction false} OnlyWrittenLinesMatch(line: string)
      returns (g: Gaps, digits: string, k: nat, fc: Number, gain: Number, q: Number, tail: string)
    requires MatchLine(line).Some?
    ensures g.Valid() && IsDigits(digits) && k < 4 && fc.Valid() && gain.Valid() && q.Valid()
    ensures !fc.negative && !q.negative && !StartsWithDigit(tail)
    ensures
      var m := MatchLine(line).value;
      && line == LineText(g, digits, m.on, KINDS[k], NumbersText(g, fc, gain, q, tail))
      && m == FilterLine(ReadNat(digits), m.on, KINDS[k], fc.Text(), gain.Text(), q.Text())
  {
    var filter, head, switch, kind, on;
    filter, digits, head := HeadFound(line);
    on, switch := OneOfFound(SWITCHES, Head(line).rest);
    var r := OneOf(SWITCHES, Head(line).rest).rest;
    k, kind := OneOfFound(KINDS, r);
    r := OneOf(KINDS, r).rest;
    g, fc, gain, q := NumbersFound(r, Gaps(filter, head, switch, kind, "", "", "", "", "", "", ""));
    tail := Numbers(r).rest;
    assert "ON"[1] != "OFF"[1];
  }
}
