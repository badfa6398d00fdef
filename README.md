# jianpu to MIDI, modelled in Dafny

This project models the compiler core of a small jianpu (numbered musical
notation) tool. The tool reads a text score and writes a Standard MIDI File.

A score holds header lines (`#KEY=G`, `#TIME=3/4`, `#TEMPO=90`, `#UNIT=e`),
comment lines starting with `;`, and body lines of white-space separated
tokens:

- bar lines `|` and `||`;
- rests such as `R`, `0q` or `0h.`;
- chord symbols such as `C`, `F#m`, `Bb7`, and `O` for "no chord";
- notes: a degree `1`-`7`, an optional `#` or `b`, octave marks `'` and `,`,
  an optional duration code, dots, and an optional tie marker.

The compiler loops over the tokens once. It writes:

- a melody track on channel 0, one note-on/note-off pair per note, with tied
  notes of the same pitch merged;
- a chord track on channel 1, where each chord sounds until the next chord
  symbol or the end of the score;
- optionally, a metronome track on channel 9 with one click per beat, the
  first click of each measure accented.

Under-full measures are padded with silence and over-full ones are an error.

The modules follow the source files:

| module | source |
|---|---|
| `Results` | `Option`/`Result` and the exceptions the source raises, as values |
| `Text` | the Python `str` builtins the source calls (`strip`, `split`, `splitlines`, `upper`, `lower`, `int`) |
| `Tables` | the constants in main.py lines 37-47 |
| `Utils` | utils.py (the same three helpers are copied at main.py lines 58-79) |
| `Tokens` | the three regular expressions of reutils.py and main.py lines 50-55, as matchers |
| `ChordSymbols` | parse_chord.py and `parse_chord` in main.py lines 82-149 |
| `ChordPatterns` | chord_patterns.py: the four rhythm strategies and their factory |
| `Events` | MIDI messages with delta times, and a track object |
| `Score` | `ScoreParser` in main.py lines 152-171 |
| `Config` | the settings `build_midi` reads, main.py lines 179-188 |
| `Compiler` | the token loop, closing code and metronome of `build_midi`, main.py lines 203-336 |
| `CompilerProperties` | what the token loop keeps true of the tracks it writes |

Loops in the source are methods with loop invariants. Each method is proved
equal to a specification function, and the properties are lemmas about those
functions. The methods are:

- `Score.ScoreParser.Parse`, `ReadLines` and `AppendTokens`;
- `Compiler.BuildMidi` with `TieChain`, `Close` and `MetronomeTrack`;
- `ChordSymbols.GetItem`;
- the `ChordPatterns.Generate*` methods, which append to an `Events.Track`;
  they are proved against `ChordPatterns.Generate` and, when a message is
  refused, against the messages built before it (`ChordPatterns.Sent`).

The two tie markers differ. The note grammar of main.py ends with `-` and the
one in reutils.py ends with `^`. `Tokens.MatchNote` takes the marker as a
parameter. `Compiler` uses main.py's `-` (`Tokens.MainTie`), because
`build_midi` uses main.py's own regular expressions.

## Model

| member | source | states |
|---|---|---|
| Tables.NoteTable | main.py:40-44 | each of the 17 note names has the pitch of the table (C = 60 up to B = 71) |
| Tables.KnownKeyShape | main.py:40-44 | every known name is a letter A-G with an optional `#`/`b`, and its pitch lies in 60..71 |
| Tables.MissingEnharmonics | main.py:40-44 | Cb, E#, Fb and B# are not in the table |
| Tables.NoteToMidi | main.py:40-44 | a name the table knows has a pitch in 60..71; `Tables.NoteTable` lists every entry |
| Text.UpperStrKeeps | main.py:165 | upper-casing keeps white space at both ends and is idempotent |
| Text.LowerIdempotent | chord_patterns.py:278 | lower-casing twice is lower-casing once |
| Text.RStrip | main.py:160 | `rstrip` gives a prefix of the input that does not end in white space |
| Text.RStripDropsSpace | main.py:160 | everything `rstrip` removes is white space |
| Text.LStripSuffix | utils.py:13 | `lstrip` keeps a suffix of the input and removes only white space |
| Text.StripEnds | utils.py:13 | a stripped text has no white space at either end, and stripping again changes nothing |
| Text.StripNoSpaceEnds | utils.py:13 | a text with no white space at its ends is its own strip |
| Text.IndexOf | main.py:164 | the first index of the separator, or the length when it is absent |
| Text.SplitOn | main.py:185 | `split` on a character gives at least one piece |
| Text.WordLen | main.py:170 | the length of the leading run of non-space characters, which stops at a space or the end |
| Text.SplitWsWords | main.py:170 | every piece of `split()` is non-empty and holds no white space |
| Text.SplitWsConcat | main.py:170 | together the pieces of `split()` are exactly the non-space characters, in order |
| Text.NonSpaceAppend | main.py:170 | dropping white space distributes over concatenation |
| Text.LineEnd | main.py:160 | the index of the first line break, or the length when there is none |
| Text.SplitLines | main.py:160 | no line from `splitlines` contains a line break |
| Text.Strip | utils.py:13 | `strip()`; `Text.StripEnds`, `Text.LStripSuffix` and `Text.RStripDropsSpace` state what it keeps and removes |
| Text.SplitWs | main.py:170 | `split()`; `Text.SplitWsWords` and `Text.SplitWsConcat` state its pieces |
| Text.ParseInt | main.py:180-185 | `int()` on a string; `Text.ParseIntText` states that it reads back what `str()` writes |
| Text.Digits | main.py:180-185 | the decimal digits of a number, every one a digit character |
| Text.DigitsValueOf | main.py:180-185 | the value of the digits of n is n |
| Text.ParseIntText | main.py:180-185 | `int(str(n)) == n` for every integer, negative ones included |
| Utils.BeatsAsWritten | utils.py:3-9 | `_beats` as written: no code gives the unit, a letter gives its table value, `/N` raises; then the dots apply (see Findings) |
| Utils.SlashDurationRaises | utils.py:5 | every `/N` duration raises in `_beats` as written |
| Utils.Beats | utils.py:3-9 | corrected `_beats`: `/N` counts N units; the result is non-negative for a non-negative unit |
| Utils.BeatsAgree | utils.py:3-9 | the written and corrected `_beats` agree exactly on the codes where the written one returns, which are all codes but `/N` |
| Utils.SlashBeats | utils.py:5 | a `/N` code lasts N units |
| Utils.BeatsScale | utils.py:3-9 | every duration is a fixed multiple of the unit |
| Utils.NormKeyIdempotent | utils.py:12-18 | normalising a normalised key gives the same key |
| Utils.OctavePeriodic | utils.py:21-24 | one more octave mark raises the pitch by 12 |
| Utils.AccidentalSemitone | utils.py:21-24 | a sharp is one semitone above and a flat one below the natural degree |
| Utils.ReferencePitches | utils.py:21-24 | degree 1 is the key root; in C the degrees 1-7 are 60 62 64 65 67 69 71 |
| Utils.DegreeToMidi | utils.py:21-24 | `_degree2midi`; `Utils.DegreeOctave`, `Utils.OctavePeriodic`, `Utils.AccidentalSemitone` and `Utils.ReferencePitches` state it |
| Utils.DegreeOctave | utils.py:21-24 | the pitch lies in the octave the octave marks select: from one below the root to the next root, shifted by 12 per mark |
| Tokens.TakeWhile | reutils.py:3-6 | splits off the longest prefix in a character class; what remains starts outside the class |
| Tokens.TakeWhileOf | reutils.py:3-6 | a class run followed by a non-class character is read back as that split |
| Tokens.MatchDur | reutils.py:4 | the duration group reads a valid code, and the code's text followed by the remainder is the input |
| Tokens.DotText | reutils.py:5 | the text of n dots is n dots |
| Tokens.CharDegree | reutils.py:4 | a digit 1-7 reads as its degree and renders back to that digit |
| Tokens.MatchDurOf | reutils.py:4 | a rendered duration code followed by dots or the end reads back as that code |
| Tokens.MatchEndOf | reutils.py:5 | rendered dots and tie marker read back as the dot count and tie flag |
| Tokens.MatchFromDurOf | reutils.py:4-5 | duration, dots and tie read back from their text |
| Tokens.MatchFromMarksOf | reutils.py:4-5 | octave marks, duration, dots and tie read back from their text |
| Tokens.AfterAccHead | reutils.py:4 | the text after the accidental never starts with `#` or `b`, so the accidental group is unambiguous |
| Tokens.MatchFromAccOf | reutils.py:4-5 | accidental, marks, duration, dots and tie read back from their text |
| Tokens.MatchRenderNote | reutils.py:3-6 | every well-formed note record is read back from its text (rendering then matching is the identity) |
| Tokens.MatchEndText | reutils.py:5 | whatever the dots-and-tie matcher accepts is exactly the text of what it returns |
| Tokens.MatchFromMarksText | reutils.py:4-5 | whatever the matcher accepts after the accidental is exactly the text of what it returns |
| Tokens.ReadAcc | reutils.py:4 | the accidental read, followed by what remains, is the input |
| Tokens.MatchFromAccText | reutils.py:4-5 | whatever the matcher accepts after the degree is exactly the text of what it returns |
| Tokens.RenderMatchNote | reutils.py:3-6 | whatever the note matcher accepts is well formed and is the text of the record returned (matching then rendering is the identity) |
| Tokens.MatchRenderRest | reutils.py:7 | every well-formed rest record is read back from its text |
| Tokens.RenderMatchRest | reutils.py:7 | whatever the rest matcher accepts is well formed and is the text of the record returned |
| Tokens.MatchNoteWellFormed | reutils.py:3-6 | the note matcher only returns well-formed records |
| Tokens.MatchNote | reutils.py:3-6 | the note regular expression; `Tokens.MatchRenderNote` and `Tokens.RenderMatchNote` state that it reads exactly the text of well-formed notes |
| Tokens.MatchRest | reutils.py:7 | the rest regular expression; `Tokens.MatchRenderRest` and `Tokens.RenderMatchRest` state the same for rests |
| Tokens.IsChordToken | reutils.py:8 | the chord regular expression; `Tokens.ChordDisjoint` states that no chord token is a note or a rest |
| Tokens.MatchRestWellFormed | reutils.py:7 | the rest matcher only returns well-formed records |
| Tokens.NoteRestDisjoint | reutils.py:3-7 | no token is both a note and a rest |
| Tokens.ChordDisjoint | reutils.py:3-8 | no chord token is a note or a rest |
| Tokens.RestHasNoTie | reutils.py:7 | a rest followed by a tie marker is no rest |
| Tokens.SlashNoteRaises | main.py:50-53 | the note grammar accepts `1/2`, and `_beats` as written raises on its duration |
| ChordSymbols.IntervalsOf | parse_chord.py:60-90 | every quality's intervals start at 0 and strictly rise; there are 3 exactly for the triads and 5 exactly for the ninth |
| ChordSymbols.QualityAsWritten | parse_chord.py:60-90 | the quality table as written; `ChordSymbols.MajorSeventhBranchDead` states that its `M7` alternative is never reached |
| ChordSymbols.MajorSeventhBranchDead | parse_chord.py:79 | no lower-cased text equals `M7`, so that table branch is dead as written |
| ChordSymbols.VoiceIncreasing | parse_chord.py:92 | rising intervals give rising pitches |
| ChordSymbols.ParseChordAsWritten | parse_chord.py:25-92 | as written: the result is the empty chord exactly when the upper-cased symbol is `O` (see Findings) |
| ChordSymbols.ParseChord | parse_chord.py:25-92 | corrected: empty exactly for `O`; `IndexError` exactly for a blank symbol; otherwise an unknown root raises, or there are 3 to 5 strictly rising pitches whose first is the root's table pitch less 12 (48-59), all in 48..73 |
| ChordSymbols.ParseChordAgrees | parse_chord.py:25-92 | the written and corrected parsers agree on every symbol whose suffix is not exactly `M7` |
| ChordSymbols.ParseClean | parse_chord.py:41-92 | a symbol with no surrounding white space, other than `O`, is read root first, in both versions |
| ChordSymbols.MajorSeventhAsWritten | parse_chord.py:35-79 | as written, `CM7` gives the minor seventh [48, 51, 55, 58], the same as `Cm7` |
| ChordSymbols.MajorSeventhCorrected | parse_chord.py:35-79 | corrected, `CM7` gives the major seventh [48, 52, 55, 59], like `Cmaj7`, and `Cm7` stays minor |
| ChordSymbols.ChordCM7 | parse_chord.py:35-79 | `CM7` as written and corrected, side by side |
| ChordSymbols.ParseChordExamples | parse_chord.py:25-92 | `C` is [48, 52, 55]; `o` and `O` are no chord; `H`, `Cb` and `E#m` raise for an unknown root |
| ChordSymbols.UnknownRoots | parse_chord.py:56-57 | roots missing from the table raise |
| ChordSymbols.NewChord | parse_chord.py:7-9 | `Chord(sym)` succeeds exactly when the parse does, keeping the symbol and the parsed pitches, and otherwise raises the same error |
| ChordSymbols.Len | parse_chord.py:21-22 | `len(chord)`; `ChordSymbols.AtMatchesIter` relates it to indexing |
| ChordSymbols.Iter | parse_chord.py:18-19 | `iter(chord)`; `ChordSymbols.AtMatchesIter` relates it to indexing |
| ChordSymbols.At | parse_chord.py:11-16 | `chord[item]` in closed form; `ChordSymbols.GetItem`, `ChordSymbols.AtPeriodic` and `ChordSymbols.AtAscends` state its behaviour |
| ChordSymbols.GetItem | parse_chord.py:11-16 | the octave loop of `__getitem__` returns the closed form `At`: past the end the index wraps and each wrap adds an octave; a negative index counts from the end or raises `IndexError` |
| ChordSymbols.AtPeriodic | parse_chord.py:11-16 | indexing one length further gives the same pitch an octave higher |
| ChordSymbols.AtMatchesIter | parse_chord.py:11-22 | within range, indexing, `len` and iteration see the same notes in order, and negative indices count from the end |
| ChordSymbols.AtAscends | parse_chord.py:11-16 | for a rising chord spanning less than an octave, pitches rise with the index without end |
| ChordSymbols.NinthDoesNotAscend | parse_chord.py:89-90 | the ninth chord spans more than an octave, so index 5 is below index 4 |
| ChordPatterns.Insert | chord_patterns.py:148 | insertion adds one element |
| ChordPatterns.InsertSorted | chord_patterns.py:148 | insertion into a sorted list keeps it sorted |
| ChordPatterns.InsertPerm | chord_patterns.py:148 | insertion adds exactly the element to the multiset |
| ChordPatterns.SortAscSpec | chord_patterns.py:148 | `sorted` returns an ascending permutation of its input |
| ChordPatterns.ArpPairs | chord_patterns.py:104-117 | the arpeggio writes two messages per note |
| ChordPatterns.StrumOns | chord_patterns.py:159-164 | the strum writes one note-on per note |
| ChordPatterns.RhythmOf | chord_patterns.py:207-221 | every slot of a rhythm is one beat or half a beat |
| ChordPatterns.SlotTable | chord_patterns.py:207-218 | 4/4, 3/4, 6/8 and 2/4 give the slot ticks of their fixed rhythms |
| ChordPatterns.SlotDefault | chord_patterns.py:219-221 | any other signature repeats one `1920/den` slot `num` times |
| ChordPatterns.SlotsPositive | chord_patterns.py:224-225 | with a denominator from 1 to 960 every slot is at least one tick |
| ChordPatterns.Planned | chord_patterns.py:42-265 | the messages each strategy constructs, in order, and its end tick; `ChordPatterns.GeneratePaired`, `ChordPatterns.PlannedDrawn` and the timing lemmas state them |
| ChordPatterns.Generate | chord_patterns.py:42-265 | `generate_events`: the planned messages, or `ValueError` when the message constructor refuses one; `ChordPatterns.GenerateOkIff`, `ChordPatterns.RhythmicOkIff` and `ChordPatterns.GenerateInRange` state when |
| ChordPatterns.GetChordPattern | chord_patterns.py:269-278 | every strategy the factory returns plays at the chord velocity 50 |
| ChordPatterns.FactoryCaseInsensitive | chord_patterns.py:278 | the factory ignores the letter case of the name |
| ChordPatterns.GenerateBlock | chord_patterns.py:42-65 | the block strategy's loops return what `Generate` returns; the track gains its messages, or on a refused note or velocity only the messages built before it |
| ChordPatterns.GenerateArpeggio | chord_patterns.py:84-119 | the arpeggio's loop returns what `Generate` returns; the track gains its messages, or on a refused note or velocity only the messages built before it |
| ChordPatterns.PressAll | chord_patterns.py:50-55 | the block strategy's note-on loop appends one note-on per note, only the first carrying the wait, and stops at the first refused note or velocity |
| ChordPatterns.Arpeggiate | chord_patterns.py:103-117 | the arpeggio loop appends each note's on and off in turn and stops at the first refused message; when no message is refused it reaches `start` plus the note count times the single-note ticks |
| ChordPatterns.ReleaseAll | chord_patterns.py:58-63 | the release loop appends one note-off per note, only the first carrying the duration, and stops at the first note outside 0..127 |
| ChordPatterns.Strum | chord_patterns.py:159-164 | the strum loop appends the strummed note-ons and stops at the first refused note or velocity |
| ChordPatterns.GenerateGuitar | chord_patterns.py:140-174 | the strum strategy's loops return what `Generate` returns; the track gains its messages, or on a refused note or velocity only the messages built before it |
| ChordPatterns.RhythmLoop | chord_patterns.py:237-263 | the rhythm loop appends the rhythm's pairs and ends after the ticks it consumes, or stops at the first refused message with the messages before it on the track |
| ChordPatterns.GenerateRhythmic | chord_patterns.py:196-265 | the rhythmic strategy returns what `Generate` returns, with a zero denominator or an empty rhythm raising before anything is appended and a refused message after the ones before it |
| ChordPatterns.GenerateEvents | chord_patterns.py:11-30 | dispatching on the strategy returns what `Generate` returns and leaves on the track the messages built before any refusal |
| ChordPatterns.SentMessages | chord_patterns.py:42-265 | on success the track gains exactly `Generate`'s messages; on a refusal, the planned messages before the first refused one; on any other error, nothing |
| ChordPatterns.PlannedDrawn | chord_patterns.py:42-265 | every message plays a chord note, at the strategy's velocity or 0; the block, arpeggio and strum strategies start every chord note at that velocity |
| ChordPatterns.GenerateInRange | chord_patterns.py:42-265 | chord notes and a velocity in 0..127 are never refused |
| ChordPatterns.GenerateOkIff | chord_patterns.py:42-174 | the block, arpeggio and strum strategies raise exactly when the chord has notes and one of them or the velocity lies outside 0..127, and then with `ValueError` |
| ChordPatterns.RhythmicOkIff | chord_patterns.py:237-263 | the rhythmic strategy passes the range check exactly when every note it plays is in 0..127, and the velocity too once it plays any |
| ChordPatterns.EmptyChord | chord_patterns.py:42-43 | with no notes, every strategy appends nothing and returns `last_tick` |
| ChordPatterns.GeneratePaired | chord_patterns.py:42-265 | every strategy pairs each note-on with a later note-off of the same pitch, at the strategy's velocity then 0, all on the chord channel |
| ChordPatterns.BlockTiming | chord_patterns.py:42-65 | a block chord writes 2n messages, ends at start plus the duration (at least 1), and its deltas span the wait plus the duration |
| ChordPatterns.ArpeggioTiming | chord_patterns.py:84-119 | an arpeggio gives each note `duration // n` ticks; it ends no later than the duration, less than n ticks short of it, and its deltas span exactly to its end |
| ChordPatterns.GuitarTiming | chord_patterns.py:140-174 | a strum returns start plus the duration; its deltas span the wait, the strum and the rest; they equal the duration exactly when the strum is shorter than it |
| ChordPatterns.GuitarOrder | chord_patterns.py:148-172 | the strum's note-ons are the chord notes, each once, in ascending pitch, and the note-offs follow in the same order |
| ChordPatterns.RhythmicTiming | chord_patterns.py:196-265 | the rhythmic arpeggio ends no later than the duration, its deltas span exactly to its end, and it fills the duration when every slot is positive |
| ChordPatterns.RhythmAt | chord_patterns.py:237-263 | pair j of the rhythm loop is a note-on and note-off of chord note (k + j) mod n; only the first pair waits |
| ChordPatterns.RhythmSum | chord_patterns.py:237-263 | the rhythm loop's deltas span the wait plus the ticks it consumes |
| ChordPatterns.RhythmConsumesAll | chord_patterns.py:237-263 | with positive slots the loop consumes exactly the remaining ticks |
| ChordPatterns.RhythmConsumedBounds | chord_patterns.py:237-263 | the loop consumes between 0 and the remaining ticks |
| ChordPatterns.ArpSum | chord_patterns.py:104-117 | the arpeggio's deltas span the wait plus `single` ticks per note |
| ChordPatterns.StrumSum | chord_patterns.py:159-164 | the strum's deltas span the wait plus `strum` ticks per later string |
| Events.SumDeltasAppend | main.py:203-204 | the span of two message lists in a row is the sum of their spans |
| Events.Group | main.py:245-249 | a group has one message per note |
| Events.GroupAt | main.py:245-249 | message k of a group is note k, and only the first carries `dt` |
| Events.GroupSum | main.py:245-249 | a group spans `dt` ticks, or none when it is empty |
| Events.EmitGroup | main.py:245-249 | the group loop appends exactly `Group` |
| Events.Track.Append | chord_patterns.py:52 | appending adds the message at the end and changes nothing else |
| Events.Track.Send | chord_patterns.py:52-54 | `append(Message(...))` appends the message exactly when its note and velocity are in 0..127, and otherwise raises with the track unchanged |
| Events.Accepted | chord_patterns.py:51-54 | the number of messages built before the first refused one: all before it are accepted, and it is refused |
| Events.AcceptedAppend | chord_patterns.py:51-63 | in two lists sent one after the other, the first refusal is the first list's, or else the second's after the whole first list |
| Score.ScoreParser.Parse | main.py:158-171 | `_parse` succeeds exactly when `ParseScore` does and then fills `meta` and `tokens` with its result; otherwise it returns the same error |
| Score.ScoreParser.ReadLines | main.py:159-167 | the first loop gives the metadata and body lines of `ParseLines`, or its error |
| Score.ScoreParser.AppendTokens | main.py:169-171 | the second loop appends every body line's tokens, in order |
| Score.ClassifySpec | main.py:160-167 | a line is skipped exactly when blank, a comment exactly when its right-stripped text starts with `;`, a header (split or not) exactly when it starts with `#`; a header without `=` has none after the `#`; a body line is the right-stripped line |
| Score.BodyLineClean | main.py:160-167 | a body line is non-empty, ends in a non-space and starts with neither `;` nor `#` |
| Score.HeaderLineNormal | main.py:164-165 | a header's key is stripped and upper case, its value stripped |
| Score.ClassifyNormal | main.py:160-165 | every classified line is normal in that sense |
| Score.ErrorPersists | main.py:164 | once a line raises, the lines after it are never read |
| Score.ParseOkIff | main.py:164 | reading succeeds exactly when no `#` line lacks its `=` |
| Score.ParseBody | main.py:166-167 | the body is the body lines in order, whatever the headers say |
| Score.Classify | main.py:160-167 | one line of the first loop; `Score.ClassifySpec` states each class |
| Score.HeaderLine | main.py:164-165 | a `#` line split at its first `=`; `Score.HeaderLineNormal` states key and value |
| Score.ParseLines | main.py:159-167 | the first loop; `Score.ErrorPersists`, `Score.ParseOkIff`, `Score.ParseBody` and `Score.ParseMetaLast` state it |
| Score.ParseScore | main.py:158-171 | `_parse`; `Score.ScoreMetaNormal`, `Score.TokensWords` and `Score.TokensConcat` state its result |
| Score.Step | main.py:161-167 | one line of the first loop; `Score.ParseMetaLast` and `Score.ParseBody` state its effect |
| Score.Tokens | main.py:169-171 | the second loop; `Score.TokensWords` and `Score.TokensConcat` state it |
| Score.ParseMetaLast | main.py:165 | each key's value comes from the last header that names it |
| Score.MetaFrom | main.py:165 | every metadata entry comes from some header line |
| Score.ScoreMetaNormal | main.py:158-165 | the metadata of any score that reads has stripped upper-case keys and stripped values |
| Score.TokensWords | main.py:169-171 | tokens are non-empty and hold no white space |
| Score.TokensConcat | main.py:169-171 | read in order, the tokens spell out the body without its white space |
| Config.BitAndSelf | main.py:186 | `a & a == a` |
| Config.BitAndNegative | main.py:186 | the `&` of two negative numbers is negative |
| Config.PowerOfTwoTest | main.py:186 | `d & (d - 1) == 0` holds exactly for 0 and the positive powers of two |
| Config.BitAnd | main.py:186 | `a & b` of a non-negative `a` lies in 0..a |
| Config.UnitOf | main.py:179 | the unit is positive: the table value of `UNIT`, or 1 |
| Config.KeyOf | main.py:181-183 | an accepted key is in the pitch table |
| Config.TempoOf | main.py:180 | `int(TEMPO)`, or 120 without the header; `Text.ParseIntText` states what it reads |
| Config.TimeOf | main.py:185 | `TIME` split at `/` into two integers; `Config.DefaultTime` states the default |
| Config.WithTime | main.py:186-188 | the time checks; `Config.WithTimeAccepts` states exactly what passes |
| Config.SettingsOf | main.py:179-188 | the settings or the first error; `Config.SettingsValid` and `Config.DefaultSettings` state them |
| Config.WithTimeAccepts | main.py:186-188 | the time checks accept exactly a positive power-of-two denominator; 0 passes the bit test and raises `ZeroDivisionError` |
| Config.SettingsValid | main.py:179-188 | settings that read have a positive unit, a known key, a positive power-of-two denominator and `num * 4 / den` beats per measure |
| Config.DefaultSettings | main.py:179-188 | without headers: key C, 4/4, unit 1 beat, tempo 120, 4 beats per measure |
| Config.DefaultTime | main.py:185 | the default `4/4` reads as four over four |
| Config.DefaultKey | main.py:181 | the default key `C` is accepted as itself |
| Config.FlatCRefused | main.py:181-183 | `KEY=Cb` normalises but is refused as unsupported |
| Compiler.TruncBounds | main.py:221 | `int()` on a float moves toward zero by less than one |
| Compiler.Rest | main.py:229-237 | a rest leaves both tracks and the sounding chord alone and moves the clock and the waiting time by the same ticks, never back for a non-negative unit |
| Compiler.Bar | main.py:216-226 | the bar branch; `CompilerProperties.BarSpec` states it |
| Compiler.ChordStep | main.py:240-264 | a chord symbol raises exactly when `parse_chord` does; otherwise it leaves the melody and the clock alone, makes the parsed chord the sounding one and only appends to the chord track |
| Compiler.CloseChord | main.py:242-250 | the release of the sounding chord; `CompilerProperties.ReleaseMatches` and `CompilerProperties.CloseTimed` state it |
| Compiler.OpenChord | main.py:253-262 | the onsets of the new chord; `CompilerProperties.OpenSounding` and `CompilerProperties.OpenTimed` state it |
| Compiler.NotePitch | main.py:274 | the pitch of a note token in the key; `Utils.DegreeToMidi` states its octave |
| Compiler.Link | main.py:280-288 | the beats a tied-on note adds are non-negative |
| Compiler.Chain | main.py:279-289 | the chain ends at or after where it starts and within the tokens; its beats are non-negative when every link's are |
| Compiler.TieRun | main.py:277-289 | the tie loop ends at or after the note and within the tokens, and adds non-negative beats |
| Compiler.NoteStep | main.py:267-297 | the note branch moves past the note |
| Compiler.StepToken | main.py:212-297 | every token that does not raise moves the loop forward and only appends to the two tracks |
| Compiler.Run | main.py:212-297 | the token loop only appends to the two tracks |
| Compiler.Finish | main.py:299-316 | the closing code raises exactly when the last measure holds more than its beats plus `1e-6`; otherwise it appends at most one melody message, only appends chord messages, and the clock does not go back |
| Compiler.BeatTicks | main.py:325 | the beat length; `Compiler.BeatTicksOf` states it |
| Compiler.ClickLen | main.py:326 | the click lasts a fifth of a non-negative beat, rounded down |
| Compiler.ClickCount | main.py:328 | the clicks the loop sends; `Compiler.ClickCountOf` and `Compiler.ClickCountBounds` state it |
| Compiler.Metronome | main.py:322-336 | the click track or its error; `Compiler.MetronomeCovers`, `Compiler.MetronomeAccepts`, `Compiler.MetronomeValid` and `Compiler.ClickRefused` state it |
| Compiler.Compile | main.py:179-336 | a written file comes from settings that read and a time signature the meta message accepts (numerator 0..255, denominator 1..2**255, main.py line 197), and holds a metronome track exactly when one was asked for; a signature outside those ranges raises `ValueError` |
| Compiler.Clicks | main.py:328-335 | n clicks are 2n messages |
| Compiler.TieChain | main.py:277-289 | the tie loop returns the beats and end index of `TieRun` |
| Compiler.BarLine | main.py:216-226 | the bar branch computes `Bar` |
| Compiler.Release | main.py:242-250 | the release loop computes `CloseChord` |
| Compiler.Sound | main.py:253-262 | the onset loop computes `OpenChord` |
| Compiler.Chord | main.py:240-264 | the chord branch computes `ChordStep` |
| Compiler.Note | main.py:267-297 | the note branch computes `NoteStep` |
| Compiler.Step | main.py:213-297 | one pass of the loop body computes `StepToken`, including the refused out-of-range pitch |
| Compiler.Close | main.py:299-316 | the closing code computes `Finish` |
| Compiler.MetronomeTrack | main.py:322-336 | the metronome loop computes `Metronome`: the clicks, or the error of a zero numerator or of the first click whose velocity is out of range |
| Compiler.BuildMidi | main.py:179-336 | `build_midi` computes `Compile`: the three tracks or the first error raised, including the `time_signature` range check, with the corrected `_beats` and `parse_chord` (see Left out) |
| Compiler.ClickCountOf | main.py:328 | the loop stops after exactly the clicks that start before the end |
| Compiler.ClickCountBounds | main.py:328 | at least one click, the last one starting before the end and the next beat not |
| Compiler.MoreClicks | main.py:328 | a second beat that starts before the end gives a second click |
| Compiler.ClickVelocities | main.py:330 | every click sounds the accent or the velocity of click 1 |
| Compiler.ClickRefused | main.py:330-332 | the first click whose velocity is outside 0..127 is the error `Metronome` returns |
| Compiler.ClickAt | main.py:329-334 | click k is a note-on that waits for the rest of the beat (none for the first), accented when k is a multiple of the numerator, then a note-off after the click length |
| Compiler.ClicksPrefix | main.py:328-335 | the first k clicks of a longer run are the run of k clicks |
| Compiler.ClicksSpan | main.py:328-335 | n clicks span n - 1 beats and one click |
| Compiler.ClickOnset | main.py:329-335 | click k sounds at tick k times the beat |
| Compiler.MetronomeCovers | main.py:322-336 | a metronome that does not fail on a positive end has a non-zero numerator, a positive beat, and one click per beat started before the end: the last click starts before the end and the next beat would not |
| Compiler.MetronomeAccepts | main.py:322-336 | with a non-zero numerator and a positive beat, velocities in 0..127, as the command line clamps them (main.py line 370), never make the metronome raise |
| Compiler.MetronomeValid | main.py:329-334 | every message of the metronome track has its note and velocity in 0..127 |
| Compiler.BeatTicksOf | main.py:325 | a beat lasts `1920 / den` ticks when `den` divides 1920, at least one tick up to 1920, and none past it |
| CompilerProperties.BarTimed | main.py:216-226 | a bar line keeps the tracks on the loop's clock, which does not go back |
| CompilerProperties.RestTimed | main.py:229-237 | a rest keeps the tracks on the clock, which does not go back |
| CompilerProperties.CloseTimed | main.py:242-250 | releasing the chord brings the chord track to the current tick |
| CompilerProperties.OpenTimed | main.py:253-262 | sounding a chord brings the chord track to the current tick |
| CompilerProperties.ChordTimed | main.py:240-264 | a chord symbol keeps the tracks on the clock and does not move it |
| CompilerProperties.NoteTimed | main.py:267-297 | a note keeps the tracks on the clock, which does not go back |
| CompilerProperties.StepTimed | main.py:212-297 | every token keeps the tracks on the clock, which does not go back |
| CompilerProperties.RunTimed | main.py:212-297 | the whole loop keeps the tracks on the clock |
| CompilerProperties.FinishTracks | main.py:299-316 | the closing code pads the melody to the final tick but drops the rest ticks still waiting, and releases a sounding chord at the final tick |
| CompilerProperties.ScoreTiming | main.py:203-316 | for a whole score, the melody track ends at the final tick less the rest ticks still waiting, and the chord track ends no later |
| CompilerProperties.CompileParts | main.py:179-336 | a written file comes from settings that read and a time signature that fits, the loop and the closing code, and the metronome of the final tick |
| CompilerProperties.ClicksReach | main.py:328 | the clicks reach the final tick |
| CompilerProperties.CompileClicks | main.py:322-336 | every click of a written file's metronome track has its note and velocity in 0..127 |
| CompilerProperties.MetronomeOutlasts | main.py:322-336 | the metronome clicks on until both other tracks of a written file have ended |
| CompilerProperties.StepIsNote | main.py:267-293 | a token that reads as a note takes the note branch, which raises exactly when its pitch is outside 0..127 |
| CompilerProperties.StepKeepsMelody | main.py:216-264 | bar lines, rests and chord symbols leave the melody track alone |
| CompilerProperties.NotePairs | main.py:291-293 | a note in range and its ties add one note-on/note-off pair of one pitch at velocity 64 |
| CompilerProperties.StepPairs | main.py:212-297 | the melody stays a list of note pairs, and grows by one pair exactly when the token is a note |
| CompilerProperties.RunPairs | main.py:212-297 | after the loop the melody is a list of note pairs |
| CompilerProperties.FinishMelody | main.py:299-306 | the closing code adds at most one message to the melody: the padding note-off |
| CompilerProperties.CompileMelody | main.py:212-306 | the melody track of a written file is note pairs with notes in 0..127, then at most one padding message |
| CompilerProperties.GroupMessages | main.py:245-261 | chord groups of notes in range are on channel 1, onsets at velocity 50 and releases at 0 |
| CompilerProperties.GroupOnsets | main.py:257-261 | a group of onsets holds the notes, one each, in order |
| CompilerProperties.ReleaseMatches | main.py:242-250 | the release appends one note-off per onset of the sounding chord, in order, and keeps the track before it |
| CompilerProperties.OpenSounding | main.py:253-262 | after sounding, the track ends with the onsets of the new chord |
| CompilerProperties.ReplaceTrack | main.py:240-264 | releasing the sounding chord and sounding one in range keeps the chord track's shape |
| CompilerProperties.ChordStepTrack | main.py:240-264 | a chord symbol keeps the chord track's shape |
| CompilerProperties.StepChordTrack | main.py:212-297 | every token keeps the chord track's shape, and only a chord symbol touches it |
| CompilerProperties.RunChordTrack | main.py:212-297 | the loop keeps the chord track's shape |
| CompilerProperties.FinishReleases | main.py:309-316 | the closing code releases the chord still sounding: one note-off per onset, in order |
| CompilerProperties.FinishChords | main.py:309-316 | the closing code keeps the chord messages on channel 1 at the chord velocities |
| CompilerProperties.CompileChords | main.py:240-316 | every chord message of a written file is on channel 1, at velocity 50 on and 0 off, with its note in 0..127 |
| CompilerProperties.LinkIff | main.py:280-286 | the next token links on exactly when it is a note of the same pitch |
| CompilerProperties.ChainLinked | main.py:279-289 | every token a chain merges links on |
| CompilerProperties.ChainMaximal | main.py:279-289 | a chain stops before a token that links on only when the last merged note is not tied |
| CompilerProperties.TieRunSame | main.py:279-289 | every note the tie loop merges has the pitch of the note it extends |
| CompilerProperties.TieRunEnds | main.py:279-289 | when the token after the chain links on, the last merged note was not tied |
| CompilerProperties.TieRunMaximal | main.py:278-289 | the tie loop stops early only where the chain ends: a same-pitch note after it means the last merged note, or the first note itself, is not tied |
| CompilerProperties.BarSpec | main.py:216-226 | a bar raises exactly when the measure holds more than its beats plus `1e-6`; otherwise it pads the missing beats, truncated to ticks, onto the waiting time and opens a new measure, changing nothing else |
| CompilerProperties.BarThenFinish | main.py:216-306 | a score ending on a bar line gets one whole measure of silence more |

## Left out

- The MIDI file itself is not modelled: the header, `set_tempo`, `time_signature`, `track_name`, `program_change` and `end_of_track` messages, and `mid.save`. All of them have delta 0. The tracks are modelled as sequences of channel messages. Of the checks those messages make, only the range of the `time_signature` numerator and denominator is modelled (`Compiler.SignatureFits`).
- Compiler.Compile: does not model `bpm2tempo` or the range 0..16777215 of `set_tempo` (main.py line 196); the tempo is only read and parsed as an integer. A `#TEMPO` of 0 (division by zero), of 1 to 3 or a negative one of small magnitude (a tempo outside that range) raises in `build_midi`, while `Compile` accepts it, or reports the `time_signature` error that comes after it.
- The playback (`play_midi`) and the command line (`main`) are not modelled, and neither is reading the score file; the score text and the metronome velocities are parameters.
- Floating point is not modelled. Beats are exact reals and `int()` is truncation, so a sum of float durations that would round differently is not captured.
- Python's full Unicode case mapping, white-space set and digit set are not modelled. Only ASCII is covered, plus the few non-ASCII characters whose case mapping lands on a key the program looks up.
- `Compiler.Metronome` returns `Err(NonTermination)` for a zero beat length with a positive end tick. In Python that loop never ends (denominators above 1920 give a zero beat).
- `ChordSymbols.At` returns `Err(NonTermination)` for a non-negative index into an empty chord, where `__getitem__` never returns.
- The strum gap of the guitar strategy is a parameter. The factory passes the default 24 ticks, which is `int(0.05 * 480)`.
- `ChordSymbols.NewChord` models the `Chord` constructor as a value holding its symbol and notes. A `Chord` object is never changed after construction.
- Documented behaviour, modelled as is: the closing code drops the rest ticks still waiting at the end of the score. A bar line at the very end opens a measure that the closing code then pads with a whole measure of silence (`CompilerProperties.BarThenFinish`).
- `Events.Track` stands for the mido `MidiTrack` the strategies append to. Only `append`, and the note and velocity check of the `Message` built for it, are modelled.
- The range check mido's `Message` applies to note numbers and velocities (0..127, `ValueError` otherwise) is modelled for the values that can fall outside it: melody pitches (`Compiler.StepToken`), metronome velocities (`Compiler.Metronome`), and the notes and velocity handed to a chord strategy (`ChordPatterns.Generate`, which keeps on the track the messages built before the refusal). The chord track of `build_midi` plays notes proved to lie in 48..73 (`ChordSymbols.ParseChord`) at the constant velocity 50. Channels, program numbers and the other velocities are constants in range.
- Compiler.Compile: uses the corrected `_beats` and `parse_chord` of the Findings, not the ones `build_midi` calls. A score with a `/N` duration is compiled, where `build_midi` raises `ValueError` (main.py line 60, reached from lines 231, 273 and 287). The chord `CM7` sounds the major seventh [48, 52, 55, 59], where `build_midi` sounds the minor seventh [48, 51, 55, 58] (main.py lines 111 and 136). `Utils.BeatsAgree` and `ChordSymbols.ParseChordAgrees` state that the two versions differ on no other input.
- Compiler.BuildMidi: computes `Compile`, so it shares both corrections: `/N` durations play instead of raising, and `CM7` is a major seventh.
- Compiler.Run: the token loop shares both corrections: `/N` durations play instead of raising, and `CM7` is a major seventh.
- Compiler.StepToken: its contract states only that the loop moves forward and only appends; `CompilerProperties.StepTimed`, `CompilerProperties.StepPairs` and `CompilerProperties.StepChordTrack` state the rest. Through `Rest`, `NoteStep` and `ChordStep` it shares both corrections: `/N` durations play instead of raising, and `CM7` is a major seventh.
- Compiler.Step: computes `StepToken`, so it shares both corrections.
- Compiler.Rest: uses the corrected `_beats`, so a `/N` rest lasts N units where main.py line 231 raises `ValueError`.
- Compiler.NoteStep: its contract states only that the loop moves past the note; `CompilerProperties.NoteTimed` and `CompilerProperties.NotePairs` state its messages and its clock. It uses the corrected `_beats`, so a `/N` note lasts N units where main.py line 273 raises `ValueError`.
- Compiler.Note: computes `NoteStep`, so a `/N` note plays instead of raising.
- Compiler.Link: its contract states only that the beats added are non-negative; `CompilerProperties.LinkIff` and `CompilerProperties.LinkTie` state which token links on. It uses the corrected `_beats`, so a tied-on `/N` note lasts N units where main.py line 287 raises `ValueError`.
- Compiler.TieRun: its contract states only where the chain ends and that the beats added are non-negative; `CompilerProperties.TieRunSame` and `CompilerProperties.TieRunMaximal` state which notes it merges. Like `Link`, it merges a tied-on `/N` note where main.py line 287 raises.
- Compiler.TieChain: computes `TieRun`, so a tied-on `/N` note is merged instead of raising.
- Compiler.ChordStep: uses the corrected `parse_chord`, so `CM7` sounds [48, 52, 55, 59] where main.py lines 111 and 136 give [48, 51, 55, 58].
- Compiler.Chord: computes `ChordStep`, so `CM7` is a major seventh.

## Findings

| source | as written | input that shows it | evidently intended | confidence | as-written member | corrected member |
|---|---|---|---|---|---|---|
| utils.py:5 (also main.py:60) | a `/N` duration evaluates `float(dur)` on the code with its slash, which raises `ValueError`, although both note and rest grammars accept `/N` | the note `1/2` (`Tokens.SlashNoteRaises`) | `/N` lasts N units | not executed | Utils.BeatsAsWritten (Utils.SlashDurationRaises) | Utils.Beats (Utils.SlashBeats, Utils.BeatsAgree) |
| parse_chord.py:54,79 (also main.py:111,136) | the quality suffix is lower-cased before the table lookup, so `M7` becomes `m7` and the `M7` branch is dead | the chord `CM7`, listed as a major seventh in the docstring at parse_chord.py:35, gives [48, 51, 55, 58] | `CM7` is the major seventh [48, 52, 55, 59] | not executed | ChordSymbols.ParseChordAsWritten (ChordSymbols.MajorSeventhAsWritten, ChordSymbols.MajorSeventhBranchDead) | ChordSymbols.ParseChord (ChordSymbols.MajorSeventhCorrected, ChordSymbols.ParseChordAgrees) |
