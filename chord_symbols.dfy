/**
 * Chord symbols (parse_chord.py, and the identical `parse_chord` in main.py):
 * a root letter with an optional `#` or `b`, then a quality suffix looked up
 * in a table of intervals; and the `Chord` wrapper, whose index runs past
 * the chord into the octaves above.
 */
module ChordSymbols {
  import opened Results
  import opened Text
  import opened Tables

  predicate StrictlyIncreasing(s: seq<int>) {
    forall i, j | 0 <= i < j < |s| :: s[i] < s[j]
  }

  /** The chord qualities the table knows; an unrecognised suffix is a major triad. */
  datatype Quality =
    | Major | Minor | Augmented | Diminished | Sus4 | Sus2
    | Dominant7 | Minor7 | Major7 | HalfDiminished7 | Diminished7 | Major6 | Minor6 | Ninth

  predicate IsTriad(q: Quality) {
    q.Major? || q.Minor? || q.Augmented? || q.Diminished? || q.Sus4? || q.Sus2?
  }

  /** The intervals above the root, in semitones, of each quality. */
  function IntervalsOf(q: Quality): (r: seq<int>)
    ensures 3 <= |r| <= 5 && r[0] == 0 && StrictlyIncreasing(r)
    ensures forall k | 0 <= k < |r| :: 0 <= r[k] <= 14
    ensures |r| == 3 <==> IsTriad(q)
    ensures |r| == 5 <==> q == Ninth
  {
    match q
    case Major => [0, 4, 7]
    case Minor => [0, 3, 7]
    case Augmented => [0, 4, 8]
    case Diminished => [0, 3, 6]
    case Sus4 => [0, 5, 7]
    case Sus2 => [0, 2, 7]
    case Dominant7 => [0, 4, 7, 10]
    case Minor7 => [0, 3, 7, 10]
    case Major7 => [0, 4, 7, 11]
    case HalfDiminished7 => [0, 3, 6, 10]
    case Diminished7 => [0, 3, 6, 9]
    case Major6 => [0, 4, 7, 9]
    case Minor6 => [0, 3, 7, 9]
    case Ninth => [0, 4, 7, 10, 14]
  }

  /**
   * The if/elif chain of `parse_chord` exactly as written. It is consulted
   * with the LOWER-CASED suffix, so its `M7` alternative never matches.
   */
  function QualityAsWritten(qual: string): Quality {
    if qual == "m" then Minor
    else if qual == "aug" || qual == "+" then Augmented
    else if qual == "dim" || qual == "o" || qual == "°" then Diminished
    else if qual == "sus4" then Sus4
    else if qual == "sus2" then Sus2
    else if qual == "7" then Dominant7
    else if qual == "m7" || qual == "min7" then Minor7
    else if qual == "maj7" || qual == "M7" then Major7
    else if qual == "m7b5" || qual == "ø" then HalfDiminished7
    else if qual == "dim7" || qual == "o7" || qual == "°7" then Diminished7
    else if qual == "6" then Major6
    else if qual == "m6" then Minor6
    else if qual == "9" || qual == "7(9)" then Ninth
    else Major
  }

  /**
   * The quality of a raw suffix as the documentation describes it: `M7`,
   * upper-case as written in the symbol, is the major seventh; every other
   * suffix is looked up lower-cased as before.
   */
  function QualityOf(rawQual: string): (q: Quality)
    ensures rawQual == "M7" ==> q == Major7
    ensures rawQual != "M7" ==> q == QualityAsWritten(LowerStr(rawQual))
  {
    if rawQual == "M7" then Major7 else QualityAsWritten(LowerStr(rawQual))
  }

  /** No lower-cased text is `M7`, so the table's `M7` branch is dead as written. */
  lemma {:induction false} MajorSeventhBranchDead(s: string)
    ensures LowerStr(s) != "M7"
  {
    if |s| == 2 {
      assert LowerStr(s)[0] == Lower(s[0]);
      assert Lower(s[0]) != 'M';
    }
  }

  /** Root text and raw quality suffix: the first character upper-cased, plus
      `#` or `b` if that comes second; the rest is the suffix. */
  function ReadRoot(s: string): (r: (string, string))
    requires s != []
    ensures r.0 == (if |s| > 1 && (s[1] == '#' || s[1] == 'b') then [Upper(s[0]), s[1]] else [Upper(s[0])])
    ensures r.1 == s[|r.0|..]
  {
    if |s| > 1 && (s[1] == '#' || s[1] == 'b') then ([Upper(s[0]), s[1]], s[2..])
    else ([Upper(s[0])], s[1..])
  }

  /** The chord pitches: each interval above `base`, in table order. */
  function Voice(base: int, ivs: seq<int>): (r: seq<int>)
    ensures |r| == |ivs| && forall i | 0 <= i < |ivs| :: r[i] == base + ivs[i]
  {
    seq(|ivs|, i requires 0 <= i < |ivs| => base + ivs[i])
  }

  lemma VoiceIncreasing(base: int, ivs: seq<int>)
    requires StrictlyIncreasing(ivs)
    ensures StrictlyIncreasing(Voice(base, ivs))
  {
  }

  /** `parse_chord` exactly as written. */
  function ParseChordAsWritten(sym: string): (r: Result<seq<int>>)
    ensures r == Ok([]) <==> UpperStr(sym) == "O"
  {
    if UpperStr(sym) == "O" then Ok([])
    else
      var s := Strip(sym);
      if s == [] then Err(IndexError)
      else
        var rq := ReadRoot(s);
        if !KnownKey(rq.0) then Err(ValueError(UnknownChordRoot))
        else Ok(Voice(NoteToMidi(rq.0).value - 12, IntervalsOf(QualityAsWritten(LowerStr(rq.1)))))
  }

  /**
   * `parse_chord` with the corrected table: `O` in either case is no chord,
   * an empty symbol has no first character, an unknown root raises, and
   * otherwise the pitches start at the root one octave below the table's
   * and ascend.
   */
  function ParseChord(sym: string): (r: Result<seq<int>>)
    ensures r == Ok([]) <==> UpperStr(sym) == "O"
    ensures r == Err(IndexError) <==> UpperStr(sym) != "O" && Strip(sym) == []
    ensures r.Err? ==> r.error == IndexError || r.error == ValueError(UnknownChordRoot)
    ensures r.Ok? && r.value != [] ==>
              3 <= |r.value| <= 5 && StrictlyIncreasing(r.value) && 48 <= r.value[0] <= 59
    ensures r.Ok? && r.value != [] ==>
              Strip(sym) != [] && KnownKey(ReadRoot(Strip(sym)).0)
              && r.value[0] == NoteToMidi(ReadRoot(Strip(sym)).0).value - 12
    ensures r.Ok? ==> forall k | 0 <= k < |r.value| :: 48 <= r.value[k] <= 73
  {
    if UpperStr(sym) == "O" then Ok([])
    else
      var s := Strip(sym);
      if s == [] then Err(IndexError)
      else
        var rq := ReadRoot(s);
        if !KnownKey(rq.0) then Err(ValueError(UnknownChordRoot))
        else
          KnownKeyShape(rq.0);
          VoiceIncreasing(NoteToMidi(rq.0).value - 12, IntervalsOf(QualityOf(rq.1)));
          Ok(Voice(NoteToMidi(rq.0).value - 12, IntervalsOf(QualityOf(rq.1))))
  }

  /** The two agree on every symbol whose suffix is not exactly `M7`. */
  lemma ParseChordAgrees(sym: string)
    requires Strip(sym) != [] ==> ReadRoot(Strip(sym)).1 != "M7"
    ensures ParseChord(sym) == ParseChordAsWritten(sym)
  {
  }

  /** The suffixes the examples below use, lower-cased and looked up. */
  lemma SuffixFacts()
    ensures LowerStr("M7") == "m7" && LowerStr("m7") == "m7" && LowerStr("maj7") == "maj7"
    ensures LowerStr("9") == "9" && LowerStr("") == ""
  {
  }

  lemma QualityFacts()
    ensures QualityAsWritten("m7") == Minor7 && QualityAsWritten("maj7") == Major7
    ensures QualityAsWritten("9") == Ninth && QualityAsWritten("") == Major
  {
  }

  lemma RootFacts()
    ensures ReadRoot("CM7") == ("C", "M7") && ReadRoot("Cm7") == ("C", "m7")
    ensures ReadRoot("Cmaj7") == ("C", "maj7") && ReadRoot("C9") == ("C", "9")
    ensures ReadRoot("C") == ("C", "") && ReadRoot("H").0 == "H"
    ensures ReadRoot("Cb").0 == "Cb" && ReadRoot("E#m").0 == "E#"
  {
  }

  lemma VoiceFacts()
    ensures Voice(48, IntervalsOf(Major7)) == [48, 52, 55, 59]
    ensures Voice(48, IntervalsOf(Minor7)) == [48, 51, 55, 58]
    ensures Voice(48, IntervalsOf(Major)) == [48, 52, 55]
    ensures Voice(48, IntervalsOf(Ninth)) == [48, 52, 55, 58, 62]
  {
  }

  lemma ChordCM7()
    ensures ParseChordAsWritten("CM7") == Ok([48, 51, 55, 58])
    ensures ParseChord("CM7") == Ok([48, 52, 55, 59])
  {
    RootFacts();
    SuffixFacts();
    QualityFacts();
    VoiceFacts();
    ParseClean("CM7");
  }

  lemma ChordCm7()
    ensures ParseChordAsWritten("Cm7") == ParseChord("Cm7") == Ok([48, 51, 55, 58])
  {
    RootFacts();
    SuffixFacts();
    QualityFacts();
    VoiceFacts();
    ParseClean("Cm7");
  }

  lemma ChordCmaj7()
    ensures ParseChordAsWritten("Cmaj7") == ParseChord("Cmaj7") == Ok([48, 52, 55, 59])
  {
    RootFacts();
    SuffixFacts();
    QualityFacts();
    VoiceFacts();
    ParseClean("Cmaj7");
  }

  /** As written, `CM7` is the minor seventh `Cm7`; the documented major seventh is `Cmaj7`. */
  lemma MajorSeventhAsWritten()
    ensures ParseChordAsWritten("CM7") == ParseChordAsWritten("Cm7") == Ok([48, 51, 55, 58])
    ensures ParseChordAsWritten("Cmaj7") == Ok([48, 52, 55, 59])
  {
    ChordCM7();
    ChordCm7();
    ChordCmaj7();
  }

  /** Corrected, `CM7` is the major seventh, like `Cmaj7`, and `Cm7` stays minor. */
  lemma MajorSeventhCorrected()
    ensures ParseChord("CM7") == ParseChord("Cmaj7") == Ok([48, 52, 55, 59])
    ensures ParseChord("Cm7") == Ok([48, 51, 55, 58])
  {
    ChordCM7();
    ChordCm7();
    ChordCmaj7();
  }

  /** A symbol with no surrounding white space that is not `O` is read root first. */
  lemma {:induction false} ParseClean(sym: string)
    requires sym != [] && !IsSpace(sym[0]) && !IsSpace(sym[|sym| - 1])
    requires |sym| != 1 || Upper(sym[0]) != 'O'
    ensures ParseChord(sym) == (var rq := ReadRoot(sym);
              if !KnownKey(rq.0) then Err(ValueError(UnknownChordRoot))
              else Ok(Voice(NoteToMidi(rq.0).value - 12, IntervalsOf(QualityOf(rq.1)))))
    ensures ParseChordAsWritten(sym) == (var rq := ReadRoot(sym);
              if !KnownKey(rq.0) then Err(ValueError(UnknownChordRoot))
              else Ok(Voice(NoteToMidi(rq.0).value - 12, IntervalsOf(QualityAsWritten(LowerStr(rq.1))))))
  {
    StripNoSpaceEnds(sym);
    if |sym| == 1 {
      assert UpperStr(sym)[0] == Upper(sym[0]);
    }
  }

  lemma ChordC()
    ensures ParseChord("C") == Ok([48, 52, 55])
  {
    RootFacts();
    SuffixFacts();
    QualityFacts();
    VoiceFacts();
    ParseClean("C");
  }

  /** `H` is no letter of the table, and `Cb` and `E#` are missing from it. */
  lemma UnknownRoots()
    ensures ParseChord("H") == Err(ValueError(UnknownChordRoot))
    ensures ParseChord("Cb") == Err(ValueError(UnknownChordRoot))
    ensures ParseChord("E#m") == Err(ValueError(UnknownChordRoot))
  {
    UnknownRootH();
    UnknownRootCb();
    UnknownRootEs();
  }

  lemma UnknownRootH()
    ensures ParseChord("H") == Err(ValueError(UnknownChordRoot))
  {
    assert ReadRoot("H").0 == ['H'];
    assert NoteToMidi(['H']).None?;
    ParseClean("H");
  }

  lemma UnknownRootCb()
    ensures ParseChord("Cb") == Err(ValueError(UnknownChordRoot))
  {
    assert ReadRoot("Cb").0 == ['C', 'b'];
    assert NoteToMidi(['C', 'b']).None?;
    ParseClean("Cb");
  }

  lemma UnknownRootEs()
    ensures ParseChord("E#m") == Err(ValueError(UnknownChordRoot))
  {
    assert ReadRoot("E#m").0 == ['E', '#'];
    assert NoteToMidi(['E', '#']).None?;
    ParseClean("E#m");
  }

  /** `C` is [48, 52, 55]; `o` and `O` are no chord; roots without a pitch raise. */
  lemma ParseChordExamples()
    ensures ParseChord("C") == Ok([48, 52, 55])
    ensures ParseChord("o") == Ok([]) && ParseChord("O") == Ok([])
    ensures ParseChord("H") == Err(ValueError(UnknownChordRoot))
    ensures ParseChord("Cb") == Err(ValueError(UnknownChordRoot))
    ensures ParseChord("E#m") == Err(ValueError(UnknownChordRoot))
  {
    assert UpperStr("o") == "O" && UpperStr("O") == "O";
    ChordC();
    UnknownRoots();
  }

  /** A `Chord`: its symbol and the pitches it was parsed to (parse_chord.py:6-9). */
  datatype Chord = Chord(symbol: string, notes: seq<int>)

  /** `Chord(sym)`: raises whatever `_parse_chord` raises. */
  function NewChord(sym: string): (r: Result<Chord>)
    ensures ParseChord(sym).Ok? <==> r.Ok?
    ensures r.Ok? ==> r.value.symbol == sym && r.value.notes == ParseChord(sym).value
    ensures r.Err? ==> r.error == ParseChord(sym).error
  {
    match ParseChord(sym)
    case Ok(ns) => Ok(Chord(sym, ns))
    case Err(e) => Err(e)
  }

  /** `len(chord)` */
  function Len(c: Chord): nat {
    |c.notes|
  }

  /** `iter(chord)`, as the sequence it yields */
  function Iter(c: Chord): seq<int> {
    c.notes
  }

  /**
   * What `chord[item]` evaluates to: past the end, the index wraps and each
   * wrap adds an octave; a negative index counts from the end (Python list
   * indexing) or raises; on an empty chord a non-negative index never returns.
   */
  function At(c: Chord, item: int): Result<int> {
    var n := |c.notes|;
    if item >= 0 then
      if n == 0 then Err(NonTermination)
      else Ok(c.notes[item % n] + 12 * (item / n))
    else if item >= -n then Ok(c.notes[n + item])
    else Err(IndexError)
  }

  lemma {:induction false} MulAtLeast(k: int, n: int)
    requires k >= 1 && n > 0
    ensures k * n >= n
    decreases k
  {
    if k > 1 {
      MulAtLeast(k - 1, n);
      assert k * n == (k - 1) * n + n;
    }
  }

  /** Euclidean division is the unique quotient and remainder. */
  lemma {:induction false} DivModOf(a: int, n: int, q: int, r: int)
    requires n > 0 && 0 <= r < n && a == q * n + r
    ensures a / n == q && a % n == r
  {
    var q', r' := a / n, a % n;
    assert a == q' * n + r';
    assert (q' - q) * n == r - r';
    if q' > q {
      MulAtLeast(q' - q, n);
    } else if q' < q {
      MulAtLeast(q - q', n);
    }
  }

  /** `Chord.__getitem__`: subtract the length and count an octave until in range. */
  method GetItem(c: Chord, item: int) returns (r: Result<int>)
    ensures r == At(c, item)
  {
    var n := |c.notes|;
    if n == 0 && item >= 0 {
      return Err(NonTermination);
    }
    var i := item;
    var octave := 0;
    while i >= n
      invariant octave >= 0
      invariant item == i + octave * n
      invariant item < 0 ==> octave == 0
      invariant octave > 0 ==> i >= 0
      decreases i
    {
      i := i - n;
      octave := octave + 1;
    }
    if i >= 0 {
      DivModOf(item, n, octave, i);
      r := Ok(c.notes[i] + octave * 12);
    } else if i >= -n {
      r := Ok(c.notes[n + i]);
    } else {
      r := Err(IndexError);
    }
  }

  /** Indexing `len` further is the same pitch an octave higher. */
  lemma {:induction false} AtPeriodic(c: Chord, item: int)
    requires Len(c) > 0 && item >= 0
    ensures At(c, item + Len(c)).Ok? && At(c, item).Ok?
    ensures At(c, item + Len(c)).value == At(c, item).value + 12
  {
    var n := Len(c);
    DivModOf(item, n, item / n, item % n);
    DivModOf(item + n, n, item / n + 1, item % n);
  }

  /** Within range, indexing, length and iteration all see exactly `notes`, in order. */
  lemma AtMatchesIter(c: Chord)
    ensures |Iter(c)| == Len(c)
    ensures forall k | 0 <= k < Len(c) :: At(c, k) == Ok(Iter(c)[k])
    ensures forall k | -(Len(c) as int) <= k < 0 :: At(c, k) == Ok(Iter(c)[Len(c) + k])
  {
    forall k | 0 <= k < Len(c)
      ensures At(c, k) == Ok(Iter(c)[k])
    {
      DivModOf(k, Len(c), 0, k);
    }
  }

  /**
   * For an ascending chord spanning less than an octave, indexing ascends
   * without end; a wider chord such as the ninth does not.
   */
  lemma {:induction false} AtAscends(c: Chord, item: int)
    requires Len(c) > 0 && StrictlyIncreasing(c.notes)
    requires c.notes[Len(c) - 1] - c.notes[0] < 12
    requires item >= 0
    ensures At(c, item).Ok? && At(c, item + 1).Ok?
    ensures At(c, item).value < At(c, item + 1).value
  {
    var n := Len(c);
    var q := item / n;
    var r := item % n;
    DivModOf(item, n, q, r);
    if r + 1 < n {
      DivModOf(item + 1, n, q, r + 1);
    } else {
      DivModOf(item + 1, n, q + 1, 0);
    }
  }

  lemma ChordC9()
    ensures ParseChord("C9") == Ok([48, 52, 55, 58, 62])
  {
    RootFacts();
    SuffixFacts();
    QualityFacts();
    VoiceFacts();
    ParseClean("C9");
  }

  /** The ninth spans more than an octave: its sixth index lies below its fifth. */
  lemma NinthDoesNotAscend()
    ensures ParseChord("C9") == Ok([48, 52, 55, 58, 62])
    ensures At(Chord("C9", [48, 52, 55, 58, 62]), 4) == Ok(62)
    ensures At(Chord("C9", [48, 52, 55, 58, 62]), 5) == Ok(60)
  {
    ChordC9();
    DivModOf(4, 5, 0, 4);
    DivModOf(5, 5, 1, 0);
  }
}
