/** Decimal numbers and separated lists, as the Python built-ins print and read them. */
module Text {

  predicate IsDigit(c: char) { '0' <= c <= '9' }

  predicate IsDigits(s: string) { s != [] && forall i :: 0 <= i < |s| ==> IsDigit(s[i]) }

  /** The digits of the next number. */
  function Successor(s: string): string {
    if s == [] then "1" else
    var n := |s| - 1;
    if IsDigit(s[n]) && s[n] != '9' then s[..n] + [(s[n] as int + 1) as char] else Successor(s[..n]) + "0"
  }

  /** str(n) for a natural number. */
  function Decimal(n: nat): string {
    if n == 0 then "0" else Successor(Decimal(n - 1))
  }

  /** int(s) for a string of digits. */
  function ReadNat(s: string): int {
    if s == [] then 0 else ReadNat(s[..|s| - 1]) * 10 + (s[|s| - 1] as int - '0' as int)
  }

  lemma {:induction false} SuccessorReads(s: string)
    requires forall i :: 0 <= i < |s| ==> IsDigit(s[i])
    ensures ReadNat(Successor(s)) == ReadNat(s) + 1 && IsDigits(Successor(s))
  {
    if s == [] {
      assert "1"[..0] == [] && ReadNat("1") == 1;
    } else {
      var n := |s| - 1;
      SuccessorReads(s[..n]);
      var r := Successor(s);
      assert r[..|r| - 1] == if s[n] == '9' then Successor(s[..n]) else s[..n];
    }
  }

  /** What str prints, int reads back. */
  lemma {:induction false} ReadDecimal(n: nat)
    ensures ReadNat(Decimal(n)) == n && IsDigits(Decimal(n))
  {
    if n == 0 {
      assert "0"[..0] == [] && ReadNat("0") == 0;
    } else {
      ReadDecimal(n - 1);
      SuccessorReads(Decimal(n - 1));
    }
  }

  lemma {:induction false} ReadIsNat(s: string)
    requires forall i :: 0 <= i < |s| ==> IsDigit(s[i])
    ensures ReadNat(s) >= 0
  {
    if s != [] {
      ReadIsNat(s[..|s| - 1]);
      assert IsDigit(s[|s| - 1]);
    }
  }

  /** Different numbers print differently. */
  lemma {:induction false} DecimalInjective(m: nat, n: nat)
    requires Decimal(m) == Decimal(n)
    ensures m == n
  {
    ReadDecimal(m);
    ReadDecimal(n);
  }

  // ---- str.split ----

  predicate Free(s: string, c: char) { c !in s }

  /** s.split(sep) for a one-character separator: always at least one piece. */
  function Split(s: string, sep: char): (r: seq<string>)
    ensures |r| >= 1
  {
    if s == [] then [[]]
    else
      var rest := Split(s[1..], sep);
      if s[0] == sep then [[]] + rest else [[s[0]] + rest[0]] + rest[1..]
  }

  /** sep.join(pieces). */
  function Join(pieces: seq<string>, sep: string): string {
    if pieces == [] then [] else if |pieces| == 1 then pieces[0] else pieces[0] + sep + Join(pieces[1..], sep)
  }

  lemma {:induction false} SplitPiece(p: string, rest: string, sep: char)
    requires Free(p, sep)
    ensures Split(p + [sep] + rest, sep) == [p] + Split(rest, sep)
    decreases p
  {
    var s := p + [sep] + rest;
    if p == [] {
      assert s[1..] == rest;
    } else {
      assert s[1..] == p[1..] + [sep] + rest;
      SplitPiece(p[1..], rest, sep);
      assert [p[0]] + p[1..] == p;
    }
  }

  lemma {:induction false} SplitFree(p: string, sep: char)
    requires Free(p, sep)
    ensures Split(p, sep) == [p]
    decreases p
  {
    if p != [] {
      SplitFree(p[1..], sep);
      assert [p[0]] + p[1..] == p;
    }
  }

  /** Splitting what was joined gives the pieces back. */
  lemma {:induction false} SplitJoin(pieces: seq<string>, sep: char)
    requires pieces != [] && forall i :: 0 <= i < |pieces| ==> Free(pieces[i], sep)
    ensures Split(Join(pieces, [sep]), sep) == pieces
    decreases pieces
  {
    if |pieces| == 1 {
      SplitFree(pieces[0], sep);
    } else {
      SplitJoin(pieces[1..], sep);
      SplitPiece(pieces[0], Join(pieces[1..], [sep]), sep);
      assert [pieces[0]] + pieces[1..] == pieces;
    }
  }

  lemma {:induction false} SplitPiecesFree(s: string, sep: char)
    ensures forall i :: 0 <= i < |Split(s, sep)| ==> Free(Split(s, sep)[i], sep)
  {
    if s != [] { SplitPiecesFree(s[1..], sep); }
  }
}
