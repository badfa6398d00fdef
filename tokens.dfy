/**
 * The three token grammars (reutils.py, and the copy in main.py lines 50-55)
 * as hand-written matchers that return the parts the regular expressions
 * capture. The note grammar takes its tie marker as a parameter: `^` in
 * reutils.py, `-` in main.py.
 */
module Tokens {
  import opened Results
  import opened Text
  import opened Utils

  const MainTie: char := '-'
  const ReutilsTie: char := '^'

  /** A note: degree 1-7, accidental, octave marks, duration code, dots, tie. */
  datatype NoteToken = NoteToken(degree: int, acc: Accidental, marks: string, dur: DurCode, dots: nat, tie: bool)

  /** A rest: `R` or `0`, duration code, dots. */
  datatype RestToken = RestToken(symbol: char, dur: DurCode, dots: nat)

  datatype CharClass = Marks | Digits | DotChars

  predicate InClass(c: char, cls: CharClass) {
    match cls
    case Marks => c == '\'' || c == ','
    case Digits => IsDigit(c)
    case DotChars => c == '.'
  }

  /** A tie marker must differ from every other character a note may hold. */
  predicate ValidTieChar(c: char) {
    c != '#' && c != 'b' && c != '\'' && c != ',' && c != '/' && c != '.' && !IsDurLetter(c) && !IsDigit(c)
  }

  /** The longest prefix of `s` in `cls`, and what follows it. */
  function TakeWhile(s: string, cls: CharClass): (r: (string, string))
    ensures r.0 + r.1 == s
    ensures forall k | 0 <= k < |r.0| :: InClass(r.0[k], cls)
    ensures r.1 != [] ==> !InClass(r.1[0], cls)
  {
    if s != [] && InClass(s[0], cls) then
      var r := TakeWhile(s[1..], cls);
      ([s[0]] + r.0, r.1)
    else ([], s)
  }

  lemma {:induction false} TakeWhileOf(a: string, b: string, cls: CharClass)
    requires forall k | 0 <= k < |a| :: InClass(a[k], cls)
    requires b != [] ==> !InClass(b[0], cls)
    ensures TakeWhile(a + b, cls) == (a, b)
  {
    if a != [] {
      assert (a + b)[0] == a[0] && (a + b)[1..] == a[1..] + b;
      assert [a[0]] + a[1..] == a;
      TakeWhileOf(a[1..], b, cls);
    } else {
      assert a + b == b;
    }
  }

  /** `(?P<dur>[whqest]|/\d+)?` */
  function MatchDur(s: string): (r: (DurCode, string))
    ensures ValidDurCode(r.0)
    ensures DurText(r.0) + r.1 == s
  {
    if s != [] && IsDurLetter(s[0]) then (Letter(s[0]), s[1..])
    else if s != [] && s[0] == '/' && TakeWhile(s[1..], Digits).0 != [] then
      var d := TakeWhile(s[1..], Digits);
      (Slash(d.0), d.1)
    else (NoCode, s)
  }

  function AccText(a: Accidental): string {
    match a
    case Natural => ""
    case Sharp => "#"
    case Flat => "b"
  }

  function DurText(d: DurCode): string {
    match d
    case NoCode => ""
    case Letter(c) => [c]
    case Slash(ds) => "/" + ds
  }

  function DotText(n: nat): (s: string)
    ensures |s| == n && forall k | 0 <= k < n :: s[k] == '.'
  {
    seq(n, _ => '.')
  }

  function TieText(tied: bool, tie: char): string {
    if tied then [tie] else []
  }

  /** `(?P<dots>\.*)(?P<tie>.?)$`: the dot count and whether the tie marker closes the token. */
  function MatchEnd(s: string, tie: char): Option<(nat, bool)> {
    var dots := TakeWhile(s, DotChars);
    var tied := dots.1 != [] && dots.1[0] == tie;
    var rest := if tied then dots.1[1..] else dots.1;
    if rest == [] then Some((|dots.0|, tied)) else None
  }

  /** A note's text after its octave marks: duration code, dots, tie. */
  function MatchFromDur(s: string, tie: char): Option<(DurCode, nat, bool)> {
    var d := MatchDur(s);
    match MatchEnd(d.1, tie)
    case None => None
    case Some(e) => Some((d.0, e.0, e.1))
  }

  /** A note's text after its accidental: octave marks, duration code, dots, tie. */
  function MatchFromMarks(s: string, tie: char): Option<(string, DurCode, nat, bool)> {
    var m := TakeWhile(s, Marks);
    match MatchFromDur(m.1, tie)
    case None => None
    case Some(d) => Some((m.0, d.0, d.1, d.2))
  }

  /** A note's text after its degree: accidental, octave marks, duration code, dots, tie. */
  function MatchFromAcc(r1: string, tie: char): Option<(Accidental, string, DurCode, nat, bool)> {
    var a := ReadAcc(r1);
    match MatchFromMarks(a.1, tie)
    case None => None
    case Some(m) => Some((a.0, m.0, m.1, m.2, m.3))
  }

  function DegreeChar(d: int): char
    requires 1 <= d <= 7
  {
    ('0' as int + d) as char
  }

  function CharDegree(c: char): (d: int)
    requires '1' <= c <= '7'
    ensures 1 <= d <= 7 && DegreeChar(d) == c
  {
    c as int - '0' as int
  }

  /** `_NOTE_RE.match(tok)` with the given tie marker, anchored at both ends. */
  function MatchNote(tok: string, tie: char): Option<NoteToken> {
    if tok == [] || !('1' <= tok[0] <= '7') then None
    else
      match MatchFromAcc(tok[1..], tie)
      case None => None
      case Some(m) => Some(NoteToken(CharDegree(tok[0]), m.0, m.1, m.2, m.3, m.4))
  }

  /** `_REST_RE.match(tok)`, anchored at both ends. */
  function MatchRest(tok: string): Option<RestToken> {
    if tok == [] || (tok[0] != 'R' && tok[0] != '0') then None
    else
      var d := MatchDur(tok[1..]);
      var dots := TakeWhile(d.1, DotChars);
      if dots.1 == [] then Some(RestToken(tok[0], d.0, |dots.0|)) else None
  }

  /**
   * `_CHORD_RE.match(tok)`: a letter A-G or a-g followed by anything without
   * `/` (the optional `[#b]` is subsumed by `[^/]*`), or exactly `O`.
   */
  predicate IsChordToken(tok: string) {
    (|tok| > 0 && ('A' <= tok[0] <= 'G' || 'a' <= tok[0] <= 'g') && '/' !in tok[1..]) || tok == "O"
  }

  predicate WellFormedNote(t: NoteToken) {
    1 <= t.degree <= 7
    && (forall k | 0 <= k < |t.marks| :: InClass(t.marks[k], Marks))
    && ValidDurCode(t.dur)
  }

  predicate WellFormedRest(t: RestToken) {
    (t.symbol == 'R' || t.symbol == '0') && ValidDurCode(t.dur)
  }

  /** The text of a note after its accidental. */
  function Tail(marks: string, dur: DurCode, dots: nat, tied: bool, tie: char): string {
    marks + (DurText(dur) + (DotText(dots) + TieText(tied, tie)))
  }

  function RenderNote(t: NoteToken, tie: char): string
    requires 1 <= t.degree <= 7
  {
    [DegreeChar(t.degree)] + (AccText(t.acc) + Tail(t.marks, t.dur, t.dots, t.tie, tie))
  }

  function RenderRest(t: RestToken): string {
    [t.symbol] + DurText(t.dur) + DotText(t.dots)
  }

  /** Octave shift: one up per `'`, one down per `,`. */
  function Count(s: string, c: char): nat {
    if s == [] then 0 else (if s[0] == c then 1 else 0) + Count(s[1..], c)
  }

  function Shift(marks: string): int {
    Count(marks, '\'') - Count(marks, ',')
  }

  lemma {:induction false} MatchDurOf(d: DurCode, rest: string)
    requires ValidDurCode(d)
    requires rest != [] ==> rest[0] == '.' || (!IsDurLetter(rest[0]) && rest[0] != '/' && !IsDigit(rest[0]))
    ensures MatchDur(DurText(d) + rest) == (d, rest)
  {
    var s := DurText(d) + rest;
    match d
    case NoCode =>
      assert s == rest;
      assert s != [] ==> !IsDurLetter(s[0]) && s[0] != '/';
    case Letter(c) =>
      assert s[0] == c && s[1..] == rest;
    case Slash(ds) =>
      assert s[0] == '/' && s[1..] == ds + rest;
      assert !IsDurLetter('/');
      TakeWhileOf(ds, rest, Digits);
      assert TakeWhile(s[1..], Digits) == (ds, rest);
  }

  lemma {:induction false} MatchEndOf(n: nat, tied: bool, tie: char)
    requires tie != '.'
    ensures MatchEnd(DotText(n) + TieText(tied, tie), tie) == Some((n, tied))
  {
    TakeWhileOf(DotText(n), TieText(tied, tie), DotChars);
  }

  lemma {:induction false} MatchFromDurOf(d: DurCode, n: nat, tied: bool, tie: char)
    requires ValidDurCode(d) && ValidTieChar(tie)
    ensures MatchFromDur(DurText(d) + (DotText(n) + TieText(tied, tie)), tie) == Some((d, n, tied))
  {
    var rest := DotText(n) + TieText(tied, tie);
    assert rest != [] ==> rest[0] == '.' || rest[0] == tie by {
      if n == 0 { assert rest == TieText(tied, tie); }
    }
    MatchDurOf(d, rest);
    MatchEndOf(n, tied, tie);
  }

  lemma {:induction false} MatchFromMarksOf(t: NoteToken, tie: char)
    requires WellFormedNote(t) && ValidTieChar(tie)
    ensures MatchFromMarks(Tail(t.marks, t.dur, t.dots, t.tie, tie), tie) == Some((t.marks, t.dur, t.dots, t.tie))
  {
    var rest := DurText(t.dur) + (DotText(t.dots) + TieText(t.tie, tie));
    assert rest != [] ==> !InClass(rest[0], Marks) by {
      if rest != [] {
        if t.dur.Slash? { assert rest[0] == '/'; }
        else if t.dur.Letter? { assert rest[0] == t.dur.code; }
        else if t.dots > 0 { assert rest[0] == '.'; }
        else { assert rest[0] == tie; }
      }
    }
    TakeWhileOf(t.marks, rest, Marks);
    MatchFromDurOf(t.dur, t.dots, t.tie, tie);
  }

  /** The text after a note's accidental never starts with `#` or `b`. */
  lemma {:induction false} AfterAccHead(t: NoteToken, tie: char)
    requires WellFormedNote(t) && ValidTieChar(tie)
    ensures var s := Tail(t.marks, t.dur, t.dots, t.tie, tie);
      s != [] ==> s[0] != '#' && s[0] != 'b'
  {
    var s := Tail(t.marks, t.dur, t.dots, t.tie, tie);
    if s != [] {
      if t.marks != [] { assert s[0] == t.marks[0]; }
      else if t.dur.Slash? { assert s[0] == '/'; }
      else if t.dur.Letter? { assert s[0] == t.dur.code; }
      else if t.dots > 0 { assert s[0] == '.'; }
      else { assert s[0] == tie; }
    }
  }

  lemma {:induction false} MatchFromAccOf(t: NoteToken, tie: char)
    requires WellFormedNote(t) && ValidTieChar(tie)
    ensures MatchFromAcc(AccText(t.acc) + Tail(t.marks, t.dur, t.dots, t.tie, tie), tie)
            == Some((t.acc, t.marks, t.dur, t.dots, t.tie))
  {
    var afterAcc := Tail(t.marks, t.dur, t.dots, t.tie, tie);
    var r1 := AccText(t.acc) + afterAcc;
    MatchFromMarksOf(t, tie);
    AfterAccHead(t, tie);
    if t.acc == Natural {
      assert r1 == afterAcc;
    } else {
      assert r1[0] == AccText(t.acc)[0] && r1[1..] == afterAcc;
    }
    assert ReadAcc(r1) == (t.acc, afterAcc);
  }

  /** Every well-formed note record is read back from its text. */
  lemma {:induction false} MatchRenderNote(t: NoteToken, tie: char)
    requires WellFormedNote(t) && ValidTieChar(tie)
    ensures MatchNote(RenderNote(t, tie), tie) == Some(t)
  {
    var r1 := AccText(t.acc) + Tail(t.marks, t.dur, t.dots, t.tie, tie);
    var s := RenderNote(t, tie);
    assert s[0] == DegreeChar(t.degree) && s[1..] == r1;
    MatchFromAccOf(t, tie);
  }

  lemma {:induction false} MatchEndText(s: string, tie: char)
    requires MatchEnd(s, tie).Some?
    ensures DotText(MatchEnd(s, tie).value.0) + TieText(MatchEnd(s, tie).value.1, tie) == s
  {
    var dots := TakeWhile(s, DotChars);
    assert dots.0 == DotText(|dots.0|);
  }

  lemma {:induction false} MatchFromMarksText(s: string, tie: char)
    requires MatchFromMarks(s, tie).Some?
    ensures var m := MatchFromMarks(s, tie).value;
      (forall k | 0 <= k < |m.0| :: InClass(m.0[k], Marks)) && ValidDurCode(m.1)
      && Tail(m.0, m.1, m.2, m.3, tie) == s
  {
    var mk := TakeWhile(s, Marks);
    var d := MatchDur(mk.1);
    assert MatchFromDur(mk.1, tie).Some?;
    assert MatchEnd(d.1, tie).Some?;
    var e := MatchEnd(d.1, tie).value;
    MatchEndText(d.1, tie);
    var m := MatchFromMarks(s, tie).value;
    assert m == (mk.0, d.0, e.0, e.1);
  }

  /** The accidental the matcher reads, followed by what it leaves, is the text. */
  function ReadAcc(r1: string): (r: (Accidental, string))
    ensures AccText(r.0) + r.1 == r1
  {
    if r1 != [] && r1[0] == '#' then (Sharp, r1[1..])
    else if r1 != [] && r1[0] == 'b' then (Flat, r1[1..])
    else (Natural, r1)
  }

  lemma {:induction false} MatchFromAccText(r1: string, tie: char)
    requires MatchFromAcc(r1, tie).Some?
    ensures var m := MatchFromAcc(r1, tie).value;
      (forall k | 0 <= k < |m.1| :: InClass(m.1[k], Marks)) && ValidDurCode(m.2)
      && AccText(m.0) + Tail(m.1, m.2, m.3, m.4, tie) == r1
  {
    var a := ReadAcc(r1);
    MatchFromMarksText(a.1, tie);
    var mm := MatchFromMarks(a.1, tie).value;
    var m := MatchFromAcc(r1, tie).value;
    assert m == (a.0, mm.0, mm.1, mm.2, mm.3);
  }

  /** Whatever the note matcher accepts is the text of the record it returns. */
  lemma {:induction false} RenderMatchNote(tok: string, tie: char)
    requires MatchNote(tok, tie).Some?
    ensures WellFormedNote(MatchNote(tok, tie).value)
    ensures RenderNote(MatchNote(tok, tie).value, tie) == tok
  {
    var m := MatchFromAcc(tok[1..], tie).value;
    var t := MatchNote(tok, tie).value;
    assert t == NoteToken(CharDegree(tok[0]), m.0, m.1, m.2, m.3, m.4);
    MatchFromAccText(tok[1..], tie);
    assert DegreeChar(t.degree) == tok[0];
    assert AccText(t.acc) + Tail(t.marks, t.dur, t.dots, t.tie, tie) == tok[1..];
    assert tok == [tok[0]] + tok[1..];
  }

  lemma {:induction false} MatchRenderRest(t: RestToken)
    requires WellFormedRest(t)
    ensures MatchRest(RenderRest(t)) == Some(t)
  {
    var s := RenderRest(t);
    assert s[1..] == DurText(t.dur) + DotText(t.dots);
    TakeWhileOf(DotText(t.dots), [], DotChars);
    assert DotText(t.dots) + [] == DotText(t.dots);
    MatchDurOf(t.dur, DotText(t.dots));
  }

  lemma {:induction false} RenderMatchRest(tok: string)
    requires MatchRest(tok).Some?
    ensures WellFormedRest(MatchRest(tok).value)
    ensures RenderRest(MatchRest(tok).value) == tok
  {
    assert tok == [tok[0]] + tok[1..];
  }

  /** What the note matcher returns is well formed. */
  lemma MatchNoteWellFormed(tok: string, tie: char)
    requires MatchNote(tok, tie).Some?
    ensures WellFormedNote(MatchNote(tok, tie).value)
  {
    RenderMatchNote(tok, tie);
  }

  /** What the rest matcher returns is well formed. */
  lemma MatchRestWellFormed(tok: string)
    requires MatchRest(tok).Some?
    ensures WellFormedRest(MatchRest(tok).value)
  {
    RenderMatchRest(tok);
  }

  /** No token is both a note and a rest: they start with 1-7 and with R or 0. */
  lemma {:induction false} NoteRestDisjoint(tok: string, tie: char)
    ensures !(MatchNote(tok, tie).Some? && MatchRest(tok).Some?)
  {
  }

  /** No chord token is a note or a rest: its first character is a letter or `O`. */
  lemma {:induction false} ChordDisjoint(tok: string, tie: char)
    requires IsChordToken(tok)
    ensures MatchNote(tok, tie).None? && MatchRest(tok).None?
  {
  }

  /** A rest never takes a tie marker. */
  lemma {:induction false} RestHasNoTie(t: RestToken, tie: char)
    requires WellFormedRest(t) && ValidTieChar(tie)
    ensures MatchRest(RenderRest(t) + [tie]).None?
  {
    var s := RenderRest(t) + [tie];
    assert s[1..] == DurText(t.dur) + (DotText(t.dots) + [tie]);
    MatchDurOf(t.dur, DotText(t.dots) + [tie]);
    TakeWhileOf(DotText(t.dots), [tie], DotChars);
  }

  /** The note grammar accepts `1/2`, whose duration `_beats` as written cannot read. */
  lemma {:induction false} SlashNoteRaises()
    ensures MatchNote("1/2", MainTie) == Some(NoteToken(1, Natural, "", Slash("2"), 0, false))
    ensures BeatsAsWritten(Slash("2"), 0, 1.0).Err?
  {
    MatchRenderNote(NoteToken(1, Natural, "", Slash("2"), 0, false), MainTie);
    assert RenderNote(NoteToken(1, Natural, "", Slash("2"), 0, false), MainTie) == "1/2";
  }
}
