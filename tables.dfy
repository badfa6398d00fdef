/** The constant tables of the program (main.py lines 37-47). */
module Tables {
  import opened Results

  const TicksPerBeat: int := 480
  const MajorIntervals: seq<int> := [0, 2, 4, 5, 7, 9, 11]

  /** Channels and velocities of the three tracks. */
  const MelodyChannel: int := 0
  const MelodyVelocity: int := 64
  const ChordChannel: int := 1
  const ChordVelocity: int := 50
  const MetroChannel: int := 9
  const MetroNote: int := 37

  /** `DUR2BEAT.get(code)`: beats of a duration letter, a quarter being 1. */
  function DurToBeat(code: string): Option<real> {
    if code == "w" then Some(4.0)
    else if code == "h" then Some(2.0)
    else if code == "q" then Some(1.0)
    else if code == "e" then Some(0.5)
    else if code == "s" then Some(0.25)
    else if code == "t" then Some(0.125)
    else None
  }

  /** The pitch of a natural letter in the octave of middle C (60). */
  function NaturalPitch(c: char): Option<int> {
    match c
    case 'C' => Some(60)
    case 'D' => Some(62)
    case 'E' => Some(64)
    case 'F' => Some(65)
    case 'G' => Some(67)
    case 'A' => Some(69)
    case 'B' => Some(71)
    case _ => None
  }

  /**
   * `NOTE2MIDI.get(name)`: the seven naturals, sharps of C D F G A and flats
   * of D E G A B, one semitone from their letter.
   */
  function NoteToMidi(name: string): (p: Option<int>)
    ensures p.Some? ==> 60 <= p.value <= 71
  {
    if |name| == 1 then NaturalPitch(name[0])
    else if |name| == 2 && name[1] == '#' && name[0] in {'C', 'D', 'F', 'G', 'A'} then
      Some(NaturalPitch(name[0]).value + 1)
    else if |name| == 2 && name[1] == 'b' && name[0] in {'D', 'E', 'G', 'A', 'B'} then
      Some(NaturalPitch(name[0]).value - 1)
    else None
  }

  /** The table entry by entry. */
  lemma NoteTable()
    ensures NoteToMidi("C") == Some(60) && NoteToMidi("C#") == Some(61) && NoteToMidi("Db") == Some(61)
    ensures NoteToMidi("D") == Some(62) && NoteToMidi("D#") == Some(63) && NoteToMidi("Eb") == Some(63)
    ensures NoteToMidi("E") == Some(64) && NoteToMidi("F") == Some(65)
    ensures NoteToMidi("F#") == Some(66) && NoteToMidi("Gb") == Some(66)
    ensures NoteToMidi("G") == Some(67) && NoteToMidi("G#") == Some(68) && NoteToMidi("Ab") == Some(68)
    ensures NoteToMidi("A") == Some(69) && NoteToMidi("A#") == Some(70) && NoteToMidi("Bb") == Some(70)
    ensures NoteToMidi("B") == Some(71)
  {
  }

  predicate KnownKey(name: string) {
    NoteToMidi(name).Some?
  }

  /** Every known name is a letter A-G with an optional `#` or `b`, and its
      pitch lies in the octave starting at middle C. */
  lemma KnownKeyShape(name: string)
    requires KnownKey(name)
    ensures 1 <= |name| <= 2 && 'A' <= name[0] <= 'G'
    ensures |name| == 2 ==> name[1] == '#' || name[1] == 'b'
    ensures 60 <= NoteToMidi(name).value <= 71
  {
  }

  /** The letters that have no pitch with the other accidental: Cb, E#, Fb, B#. */
  lemma MissingEnharmonics()
    ensures !KnownKey("Cb") && !KnownKey("E#") && !KnownKey("Fb") && !KnownKey("B#")
  {
  }
}
