/** Durations, key names and pitches (utils.py). */
module Utils {
  import opened Results
  import opened Text
  import opened Tables

  datatype Accidental = Natural | Sharp | Flat

  /** The duration code of a note or rest token: none, a letter, or `/` and digits. */
  datatype DurCode = NoCode | Letter(code: char) | Slash(digits: string)

  /** The duration letters of the table: whole, half, quarter, eighth, sixteenth, thirty-second. */
  predicate IsDurLetter(c: char) {
    c == 'w' || c == 'h' || c == 'q' || c == 'e' || c == 's' || c == 't'
  }

  predicate ValidDurCode(d: DurCode) {
    match d
    case NoCode => true
    case Letter(c) => IsDurLetter(c)
    case Slash(ds) => |ds| > 0 && forall i | 0 <= i < |ds| :: IsDigit(ds[i])
  }

  /** One dot lengthens by half, two or more dots by three quarters. */
  function DotFactor(dots: nat): real {
    if dots == 0 then 1.0 else if dots == 1 then 1.5 else 1.75
  }

  /**
   * `_beats` exactly as written. For a `/N` code it evaluates `float(dur)`
   * on the code with its slash, which Python rejects.
   */
  function BeatsAsWritten(dur: DurCode, dots: nat, unit: real): Result<real>
    requires ValidDurCode(dur)
  {
    match dur
    case NoCode => Ok(unit * DotFactor(dots))
    case Letter(c) => Ok(DurToBeat([c]).value * unit * DotFactor(dots))
    case Slash(_) => Err(ValueError(BadDuration))
  }

  /** The `/N` duration raises for every `N`, although the token grammar accepts it. */
  lemma SlashDurationRaises(ds: string, dots: nat, unit: real)
    requires ValidDurCode(Slash(ds))
    ensures BeatsAsWritten(Slash(ds), dots, unit) == Err(ValueError(BadDuration))
  {
  }

  /**
   * `_beats` as the token grammar documents it: no code gives the unit, a
   * letter its table value times the unit, `/N` the unit times `N`; then the
   * dots apply.
   */
  function Beats(dur: DurCode, dots: nat, unit: real): (b: real)
    requires ValidDurCode(dur)
    ensures unit >= 0.0 ==> b >= 0.0
  {
    var base := match dur
      case NoCode => unit
      case Letter(c) => DurToBeat([c]).value * unit
      case Slash(ds) => unit * (DigitsValue(ds) as real);
    base * DotFactor(dots)
  }

  /** The corrected `_beats` agrees with the one as written wherever that one returns. */
  lemma BeatsAgree(dur: DurCode, dots: nat, unit: real)
    requires ValidDurCode(dur)
    ensures BeatsAsWritten(dur, dots, unit).Ok? <==> !dur.Slash?
    ensures BeatsAsWritten(dur, dots, unit).Ok? ==> BeatsAsWritten(dur, dots, unit).value == Beats(dur, dots, unit)
  {
  }

  /** A `/N` code counts `N` units. */
  lemma SlashBeats(ds: string, unit: real)
    requires ValidDurCode(Slash(ds))
    ensures Beats(Slash(ds), 0, unit) == unit * (DigitsValue(ds) as real)
  {
  }

  /** Durations scale with the unit: every code stands for a fixed number of units. */
  lemma BeatsScale(dur: DurCode, dots: nat, unit: real)
    requires ValidDurCode(dur)
    ensures Beats(dur, dots, unit) == unit * Beats(dur, dots, 1.0)
  {
  }

  /** `_norm_key`: strip; one character is upper-cased; a letter with `#` or `b`
      keeps the accidental; anything else raises. */
  function NormKey(name: string): (r: Result<string>)
    ensures r.Ok? <==> |Strip(name)| == 1 || (|Strip(name)| == 2 && (Strip(name)[1] == '#' || Strip(name)[1] == 'b'))
    ensures r.Ok? ==> r.value == [Upper(Strip(name)[0])] + Strip(name)[1..]
    ensures r.Err? ==> r.error == ValueError(BadKey)
  {
    var s := Strip(name);
    if |s| == 1 then Ok([Upper(s[0])])
    else if |s| == 2 && (s[1] == '#' || s[1] == 'b') then Ok([Upper(s[0]), s[1]])
    else Err(ValueError(BadKey))
  }

  /** Normalising a normalised key changes nothing. */
  lemma NormKeyIdempotent(name: string)
    requires NormKey(name).Ok?
    ensures NormKey(NormKey(name).value) == NormKey(name)
  {
    var s := Strip(name);
    var k := NormKey(name).value;
    assert !IsSpace(s[0]) && !IsSpace(s[|s| - 1]);
    UpperKeepsSpace(s[0]);
    StripNoSpaceEnds(k);
  }

  function AccidentalOffset(acc: Accidental): int {
    match acc
    case Natural => 0
    case Sharp => 1
    case Flat => -1
  }

  /** `_degree2midi`: key root plus the major-scale step, the accidental and whole octaves. */
  function DegreeToMidi(deg: int, acc: Accidental, shift: int, key: string): (p: int)
    requires 1 <= deg <= 7 && KnownKey(key)
  {
    NoteToMidi(key).value + MajorIntervals[deg - 1] + AccidentalOffset(acc) + 12 * shift
  }

  /** The pitch lies in the octave the marks select: from just below the root to the root an octave up. */
  lemma DegreeOctave(deg: int, acc: Accidental, shift: int, key: string)
    requires 1 <= deg <= 7 && KnownKey(key)
    ensures 12 * shift - 1 <= DegreeToMidi(deg, acc, shift, key) - NoteToMidi(key).value <= 12 * shift + 12
  {
  }

  /** Raising the octave shift by one raises the pitch by exactly 12. */
  lemma OctavePeriodic(deg: int, acc: Accidental, shift: int, key: string)
    requires 1 <= deg <= 7 && KnownKey(key)
    ensures DegreeToMidi(deg, acc, shift + 1, key) == DegreeToMidi(deg, acc, shift, key) + 12
  {
  }

  /** A sharp is one semitone above, a flat one below the natural degree. */
  lemma AccidentalSemitone(deg: int, shift: int, key: string)
    requires 1 <= deg <= 7 && KnownKey(key)
    ensures DegreeToMidi(deg, Sharp, shift, key) == DegreeToMidi(deg, Natural, shift, key) + 1
    ensures DegreeToMidi(deg, Flat, shift, key) == DegreeToMidi(deg, Natural, shift, key) - 1
  {
  }

  /** Degree 1 is the key root; in C the seven degrees are the white keys from middle C. */
  lemma ReferencePitches(key: string)
    requires KnownKey(key)
    ensures DegreeToMidi(1, Natural, 0, key) == NoteToMidi(key).value
    ensures forall d | 1 <= d <= 7 :: DegreeToMidi(d, Natural, 0, "C") == [60, 62, 64, 65, 67, 69, 71][d - 1]
  {
  }
}
