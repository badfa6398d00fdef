/**
 * What the token loop of `build_midi` (main.py lines 212-336) keeps true of
 * the tracks it writes: their timing agrees with the loop's clock, the
 * melody is a run of note pairs, the chord track releases what it sounded,
 * and the tie loop merges exactly the chain of tied notes of one pitch.
 */
module CompilerProperties {
  import opened Results
  import opened Text
  import opened Tables
  import opened Utils
  import opened Tokens
  import opened ChordSymbols
  import opened Events
  import opened Config
  import opened Compiler

  // ------------------------------------------------------------------
  // Timing

  /**
   * The loop's clock agrees with its tracks: the melody track and the ticks
   * still waiting reach `cur`, and the chord track reaches the tick of its
   * last message, which is not in the future.
   */
  predicate Timed(st: State) {
    st.delta >= 0 && 0 <= st.chordLast <= st.cur
    && SumDeltas(st.melody) + st.delta == st.cur
    && SumDeltas(st.chords) == st.chordLast
  }

  lemma BarTimed(cfg: Settings, st: State)
    requires Timed(st) && Bar(cfg, st).Ok?
    ensures Timed(Bar(cfg, st).value) && Bar(cfg, st).value.cur >= st.cur
  {
    TruncBounds((cfg.beatsPerMeasure - st.measure) * TicksPerBeat as real);
  }

  lemma RestTimed(cfg: Settings, st: State, r: RestToken)
    requires Playable(cfg) && ValidDurCode(r.dur) && Timed(st)
    ensures Timed(Rest(cfg, st, r)) && Rest(cfg, st, r).cur >= st.cur
  {
    TruncBounds(Beats(r.dur, r.dots, cfg.unit) * TicksPerBeat as real);
  }

  lemma CloseTimed(st: State)
    requires Timed(st)
    ensures var c := CloseChord(st);
      SumDeltas(c.melody) + c.delta == c.cur && c.delta >= 0 && c.cur == st.cur
      && SumDeltas(c.chords) == c.chordLast && 0 <= c.chordLast <= c.cur
  {
    if st.active != [] {
      SumDeltasAppend(st.chords, Group(Off, ChordChannel, st.active, 0, st.cur - st.chordLast));
      GroupSum(Off, ChordChannel, st.active, 0, st.cur - st.chordLast);
    }
  }

  lemma OpenTimed(st: State, notes: seq<int>)
    requires SumDeltas(st.chords) == st.chordLast && 0 <= st.chordLast <= st.cur
    ensures var o := OpenChord(st, notes);
      SumDeltas(o.chords) == o.chordLast && 0 <= o.chordLast <= o.cur
  {
    if notes != [] {
      SumDeltasAppend(st.chords, Group(On, ChordChannel, notes, ChordVelocity, st.cur - st.chordLast));
      GroupSum(On, ChordChannel, notes, ChordVelocity, st.cur - st.chordLast);
    }
  }

  lemma ChordTimed(st: State, tok: string)
    requires Timed(st) && ChordStep(st, tok).Ok?
    ensures Timed(ChordStep(st, tok).value) && ChordStep(st, tok).value.cur == st.cur
  {
    CloseTimed(st);
    OpenTimed(CloseChord(st), ParseChord(tok).value);
  }

  lemma NoteTimed(cfg: Settings, toks: seq<string>, i: nat, st: State, nt: NoteToken)
    requires i < |toks| && Playable(cfg) && WellFormedNote(nt) && Timed(st)
    ensures Timed(NoteStep(cfg, toks, i, st, nt).0) && NoteStep(cfg, toks, i, st, nt).0.cur >= st.cur
  {
    var pitch := NotePitch(cfg, nt);
    var beats := Beats(nt.dur, nt.dots, cfg.unit) + TieRun(cfg, toks, i, pitch, nt.tie).0;
    var ticks := Ticks(beats);
    TruncBounds(beats * TicksPerBeat as real);
    var on := Event(On, MelodyChannel, pitch, MelodyVelocity, st.delta);
    var off := Event(Off, MelodyChannel, pitch, MelodyVelocity, ticks);
    var s := NoteStep(cfg, toks, i, st, nt).0;
    assert s == st.(melody := st.melody + [on, off], delta := 0, cur := st.cur + ticks, measure := st.measure + beats);
    SumDeltasPair(st.melody, on, off);
  }

  /** Each token keeps the tracks on the clock, and the clock never goes back. */
  lemma StepTimed(cfg: Settings, toks: seq<string>, i: nat, st: State)
    requires i < |toks| && Playable(cfg) && Timed(st) && StepToken(cfg, toks, i, st).Ok?
    ensures Timed(StepToken(cfg, toks, i, st).value.0) && StepToken(cfg, toks, i, st).value.0.cur >= st.cur
  {
    var tok := toks[i];
    if IsBar(tok) {
      BarTimed(cfg, st);
    } else if MatchRest(tok).Some? {
      MatchRestWellFormed(tok);
      RestTimed(cfg, st, MatchRest(tok).value);
    } else if IsChordToken(tok) && MatchNote(tok, MainTie).None? {
      ChordTimed(st, tok);
    } else {
      MatchNoteWellFormed(tok, MainTie);
      NoteTimed(cfg, toks, i, st, MatchNote(tok, MainTie).value);
    }
  }

  lemma {:induction false} RunTimed(cfg: Settings, toks: seq<string>, i: nat, st: State)
    requires i <= |toks| && Playable(cfg) && Timed(st) && Run(cfg, toks, i, st).Ok?
    ensures Timed(Run(cfg, toks, i, st).value) && Run(cfg, toks, i, st).value.cur >= st.cur
    decreases |toks| - i
  {
    if i < |toks| {
      var next := StepToken(cfg, toks, i, st).value;
      StepTimed(cfg, toks, i, st);
      RunTimed(cfg, toks, next.1, next.0);
    }
  }

  /**
   * The closing code pads the melody to the end of the last measure but
   * drops the ticks still waiting; a chord still sounding is released at the
   * final tick.
   */
  lemma FinishTracks(cfg: Settings, st: State)
    requires Timed(st) && Finish(cfg, st).Ok?
    ensures var fin := Finish(cfg, st).value;
      fin.cur >= st.cur && SumDeltas(fin.melody) + st.delta == fin.cur
      && SumDeltas(fin.chords) == (if st.active == [] then st.chordLast else fin.cur)
  {
    var left := cfg.beatsPerMeasure - st.measure;
    TruncBounds(left * TicksPerBeat as real);
    var padded := if left > Eps then st.(melody := st.melody + [Event(Off, MelodyChannel, 0, 0, Ticks(left))],
                                         cur := st.cur + Ticks(left))
                  else st;
    if left > Eps {
      SumDeltasAppend(st.melody, [Event(Off, MelodyChannel, 0, 0, Ticks(left))]);
      assert [Event(Off, MelodyChannel, 0, 0, Ticks(left))][..0] == [];
    }
    assert SumDeltas(padded.melody) + st.delta == padded.cur && padded.cur >= st.cur;
    if st.active != [] {
      var g := Group(Off, ChordChannel, st.active, 0, padded.cur - st.chordLast);
      assert Finish(cfg, st).value == padded.(chords := st.chords + g);
      SumDeltasAppend(st.chords, g);
      GroupSum(Off, ChordChannel, st.active, 0, padded.cur - st.chordLast);
    } else {
      assert Finish(cfg, st).value == padded;
    }
  }

  /**
   * A whole score: the melody track ends at the final tick less the rest
   * ticks still waiting at the end, and the chord track ends no later.
   */
  lemma ScoreTiming(cfg: Settings, toks: seq<string>)
    requires Playable(cfg) && Run(cfg, toks, 0, Init).Ok? && Finish(cfg, Run(cfg, toks, 0, Init).value).Ok?
    ensures var st := Run(cfg, toks, 0, Init).value;
      var fin := Finish(cfg, st).value;
      st.delta >= 0 && SumDeltas(fin.melody) + st.delta == fin.cur
      && 0 <= SumDeltas(fin.chords) <= fin.cur
  {
    RunTimed(cfg, toks, 0, Init);
    FinishTracks(cfg, Run(cfg, toks, 0, Init).value);
  }

  /** A written file is the closing code's tracks after the token loop, on settings that read. */
  lemma CompileParts(meta: map<string, string>, toks: seq<string>, metroOn: bool, accent: int, regular: int)
    requires Compile(meta, toks, metroOn, accent, regular).Ok?
    ensures SettingsOf(meta).Ok? && ValidSettings(SettingsOf(meta).value)
    ensures SignatureFits(SettingsOf(meta).value.num, SettingsOf(meta).value.den)
    ensures var cfg := SettingsOf(meta).value;
      Playable(cfg) && Run(cfg, toks, 0, Init).Ok? && Finish(cfg, Run(cfg, toks, 0, Init).value).Ok?
    ensures var cfg := SettingsOf(meta).value;
      var fin := Finish(cfg, Run(cfg, toks, 0, Init).value).value;
      var out := Compile(meta, toks, metroOn, accent, regular).value;
      out.melody == fin.melody && out.chords == fin.chords
      && (metroOn ==> Metronome(cfg.num, BeatTicks(cfg.den), fin.cur, accent, regular).Ok?
                      && out.metronome == Some(Metronome(cfg.num, BeatTicks(cfg.den), fin.cur, accent, regular).value))
  {
    SettingsValid(meta);
  }

  /** The clicks reach the end of the score. */
  lemma ClicksReach(num: int, bt: int, cur: int, accent: int, regular: int)
    requires cur >= 0 && Metronome(num, bt, cur, accent, regular).Ok?
    ensures cur <= |Metronome(num, bt, cur, accent, regular).value| / 2 * bt
  {
    if cur > 0 {
      MetronomeCovers(num, bt, cur, accent, regular);
    }
  }

  /** Every click of a written file's metronome track has its note and velocity in range. */
  lemma CompileClicks(meta: map<string, string>, toks: seq<string>, accent: int, regular: int)
    requires Compile(meta, toks, true, accent, regular).Ok?
    ensures var out := Compile(meta, toks, true, accent, regular).value;
      out.metronome.Some?
      && forall k | 0 <= k < |out.metronome.value| ::
           DataByte(out.metronome.value[k].note) && DataByte(out.metronome.value[k].velocity)
  {
    CompileParts(meta, toks, true, accent, regular);
    var cfg := SettingsOf(meta).value;
    var fin := Finish(cfg, Run(cfg, toks, 0, Init).value).value;
    MetronomeValid(cfg.num, BeatTicks(cfg.den), fin.cur, accent, regular);
  }

  /** The metronome clicks on until both tracks of the written file have ended. */
  lemma MetronomeOutlasts(meta: map<string, string>, toks: seq<string>, accent: int, regular: int)
    requires Compile(meta, toks, true, accent, regular).Ok?
    ensures var out := Compile(meta, toks, true, accent, regular).value;
      var cfg := SettingsOf(meta).value;
      cfg.den > 0 && out.metronome.Some?
      && SumDeltas(out.melody) <= |out.metronome.value| / 2 * BeatTicks(cfg.den)
      && SumDeltas(out.chords) <= |out.metronome.value| / 2 * BeatTicks(cfg.den)
  {
    CompileParts(meta, toks, true, accent, regular);
    var cfg := SettingsOf(meta).value;
    ScoreTiming(cfg, toks);
    var fin := Finish(cfg, Run(cfg, toks, 0, Init).value).value;
    ClicksReach(cfg.num, BeatTicks(cfg.den), fin.cur, accent, regular);
  }

  // ------------------------------------------------------------------
  // The melody track

  /** Messages `2j` and `2j + 1` start and stop one melody note, whose number is in range. */
  predicate NotePair(m: seq<Event>, j: int)
    requires 0 <= j && 2 * j + 1 < |m|
  {
    m[2 * j].kind == On && m[2 * j + 1].kind == Off
    && m[2 * j].channel == MelodyChannel && m[2 * j + 1].channel == MelodyChannel
    && m[2 * j].note == m[2 * j + 1].note && DataByte(m[2 * j].note)
    && m[2 * j].velocity == MelodyVelocity && m[2 * j + 1].velocity == MelodyVelocity
  }

  ghost predicate MelodyPairs(m: seq<Event>) {
    |m| % 2 == 0 && forall j | 0 <= j && 2 * j + 1 < |m| :: NotePair(m, j)
  }

  lemma PairsAppend(m: seq<Event>, on: Event, off: Event)
    requires MelodyPairs(m) && NotePair([on, off], 0)
    ensures MelodyPairs(m + [on, off])
  {
    var n := m + [on, off];
    forall j | 0 <= j && 2 * j + 1 < |n| ensures NotePair(n, j) {
      if 2 * j + 1 < |m| {
        assert n[2 * j] == m[2 * j] && n[2 * j + 1] == m[2 * j + 1];
        assert NotePair(m, j);
      } else {
        assert 2 * j == |m|;
        assert n[2 * j] == on && n[2 * j + 1] == off;
      }
    }
  }

  /** A token that reads as a note takes the note branch, which raises exactly when its pitch is no data byte. */
  lemma StepIsNote(cfg: Settings, toks: seq<string>, i: nat, st: State, nt: NoteToken)
    requires i < |toks| && Playable(cfg) && MatchNote(toks[i], MainTie) == Some(nt)
    ensures WellFormedNote(nt)
    ensures StepToken(cfg, toks, i, st)
            == if DataByte(NotePitch(cfg, nt)) then Ok(NoteStep(cfg, toks, i, st, nt)) else Err(ValueError(DataByteRange))
  {
    MatchNoteWellFormed(toks[i], MainTie);
    NoteRestDisjoint(toks[i], MainTie);
  }

  /** Bar lines, rests and chord symbols leave the melody track alone. */
  lemma StepKeepsMelody(cfg: Settings, toks: seq<string>, i: nat, st: State)
    requires i < |toks| && Playable(cfg) && StepToken(cfg, toks, i, st).Ok? && MatchNote(toks[i], MainTie).None?
    ensures StepToken(cfg, toks, i, st).value.0.melody == st.melody
  {
    var tok := toks[i];
    if !IsBar(tok) && MatchRest(tok).Some? {
      MatchRestWellFormed(tok);
      assert StepToken(cfg, toks, i, st).value.0 == Rest(cfg, st, MatchRest(tok).value);
    }
  }

  /** A note and its ties add one note pair. */
  lemma NotePairs(cfg: Settings, toks: seq<string>, i: nat, st: State, nt: NoteToken)
    requires i < |toks| && Playable(cfg) && WellFormedNote(nt) && MelodyPairs(st.melody)
    requires DataByte(NotePitch(cfg, nt))
    ensures var m := NoteStep(cfg, toks, i, st, nt).0.melody;
      MelodyPairs(m) && |m| == |st.melody| + 2
  {
    var pitch := NotePitch(cfg, nt);
    var ticks := Ticks(Beats(nt.dur, nt.dots, cfg.unit) + TieRun(cfg, toks, i, pitch, nt.tie).0);
    PairsAppend(st.melody, Event(On, MelodyChannel, pitch, MelodyVelocity, st.delta),
                Event(Off, MelodyChannel, pitch, MelodyVelocity, ticks));
  }

  /** Only a note token writes melody messages: one note pair, whatever its ties. */
  lemma StepPairs(cfg: Settings, toks: seq<string>, i: nat, st: State)
    requires i < |toks| && Playable(cfg) && MelodyPairs(st.melody) && StepToken(cfg, toks, i, st).Ok?
    ensures MelodyPairs(StepToken(cfg, toks, i, st).value.0.melody)
    ensures |StepToken(cfg, toks, i, st).value.0.melody|
            == |st.melody| + if MatchNote(toks[i], MainTie).Some? then 2 else 0
  {
    match MatchNote(toks[i], MainTie)
    case None => StepKeepsMelody(cfg, toks, i, st);
    case Some(nt) =>
      StepIsNote(cfg, toks, i, st, nt);
      NotePairs(cfg, toks, i, st, nt);
  }

  lemma {:induction false} RunPairs(cfg: Settings, toks: seq<string>, i: nat, st: State)
    requires i <= |toks| && Playable(cfg) && MelodyPairs(st.melody) && Run(cfg, toks, i, st).Ok?
    ensures MelodyPairs(Run(cfg, toks, i, st).value.melody)
    decreases |toks| - i
  {
    if i < |toks| {
      var next := StepToken(cfg, toks, i, st).value;
      StepPairs(cfg, toks, i, st);
      RunPairs(cfg, toks, next.1, next.0);
    }
  }

  /** The padding the closing code may add: a note-off of note 0, velocity 0, after the missing ticks. */
  predicate Padding(e: Event) {
    e.kind == Off && e.channel == MelodyChannel && e.note == 0 && e.velocity == 0 && e.delta >= 0
  }

  /** The closing code adds at most one message to the melody: the padding of the last measure. */
  lemma FinishMelody(cfg: Settings, st: State)
    requires MelodyPairs(st.melody) && Finish(cfg, st).Ok?
    ensures var m := Finish(cfg, st).value.melody;
      MelodyPairs(m) || (|m| > 0 && MelodyPairs(m[..|m| - 1]) && Padding(m[|m| - 1]))
  {
    var left := cfg.beatsPerMeasure - st.measure;
    TruncBounds(left * TicksPerBeat as real);
    var m := Finish(cfg, st).value.melody;
    if left > Eps {
      assert m == st.melody + [Event(Off, MelodyChannel, 0, 0, Ticks(left))];
      assert m[..|m| - 1] == st.melody;
    } else {
      assert m == st.melody;
    }
  }

  /** The melody track of a written file is note pairs with notes in range, then at most one padding message. */
  lemma CompileMelody(meta: map<string, string>, toks: seq<string>, metroOn: bool, accent: int, regular: int)
    requires Compile(meta, toks, metroOn, accent, regular).Ok?
    ensures var m := Compile(meta, toks, metroOn, accent, regular).value.melody;
      MelodyPairs(m) || (|m| > 0 && MelodyPairs(m[..|m| - 1]) && Padding(m[|m| - 1]))
  {
    CompileParts(meta, toks, metroOn, accent, regular);
    var cfg := SettingsOf(meta).value;
    RunPairs(cfg, toks, 0, Init);
    FinishMelody(cfg, Run(cfg, toks, 0, Init).value);
  }

  // ------------------------------------------------------------------
  // The chord track

  /** Every chord message is on the chord channel; onsets at velocity 50, releases at 0. */
  predicate ChordMessages(c: seq<Event>) {
    forall k | 0 <= k < |c| ::
      c[k].channel == ChordChannel && c[k].velocity == (if c[k].kind == On then ChordVelocity else 0)
      && DataByte(c[k].note)
  }

  /** Every pitch of `notes` is a data byte. */
  predicate InRange(notes: seq<int>) {
    forall k | 0 <= k < |notes| :: DataByte(notes[k])
  }

  /** `evs` are note-ons of `notes`, one each, in order. */
  predicate Onsets(evs: seq<Event>, notes: seq<int>) {
    |evs| == |notes| && forall k | 0 <= k < |evs| :: evs[k].kind == On && evs[k].note == notes[k]
  }

  /** `offs` are note-offs of the notes of `ons`, one each, in order. */
  predicate Releases(offs: seq<Event>, ons: seq<Event>) {
    |offs| == |ons| && forall k | 0 <= k < |offs| :: offs[k].kind == Off && offs[k].note == ons[k].note
  }

  /** The last messages of the chord track are the onsets of the sounding chord. */
  function Last(c: seq<Event>, n: nat): seq<Event>
    requires n <= |c|
  {
    c[|c| - n..]
  }

  /** The sounding chord is the run of onsets that ends the chord track. */
  predicate Sounding(st: State) {
    st.active != [] ==> |st.active| <= |st.chords| && Onsets(Last(st.chords, |st.active|), st.active)
  }

  predicate ChordTrack(st: State) {
    ChordMessages(st.chords) && Sounding(st) && InRange(st.active)
  }

  lemma GroupMessages(c: seq<Event>, kind: Kind, notes: seq<int>, dt: int)
    requires ChordMessages(c) && InRange(notes)
    ensures ChordMessages(c + Group(kind, ChordChannel, notes, if kind == On then ChordVelocity else 0, dt))
  {
    var v := if kind == On then ChordVelocity else 0;
    var n := c + Group(kind, ChordChannel, notes, v, dt);
    forall k | 0 <= k < |n|
      ensures n[k].channel == ChordChannel && n[k].velocity == (if n[k].kind == On then ChordVelocity else 0)
      ensures DataByte(n[k].note)
    {
      if k >= |c| {
        GroupAt(kind, ChordChannel, notes, v, dt, k - |c|);
      }
    }
  }

  lemma GroupOnsets(kind: Kind, notes: seq<int>, v: int, dt: int)
    ensures var g := Group(kind, ChordChannel, notes, v, dt);
      forall k | 0 <= k < |g| :: g[k].kind == kind && g[k].note == notes[k]
  {
    var g := Group(kind, ChordChannel, notes, v, dt);
    forall k | 0 <= k < |g| ensures g[k].kind == kind && g[k].note == notes[k] {
      GroupAt(kind, ChordChannel, notes, v, dt, k);
    }
  }

  /**
   * A release sends one note-off per note of the sounding chord, in order,
   * each for the note of the matching onset.
   */
  lemma ReleaseMatches(st: State)
    requires Sounding(st) && st.active != []
    ensures var c := CloseChord(st).chords;
      |c| == |st.chords| + |st.active| && c[..|st.chords|] == st.chords
      && Releases(c[|st.chords|..], Last(st.chords, |st.active|))
  {
    var g := Group(Off, ChordChannel, st.active, 0, st.cur - st.chordLast);
    var c := CloseChord(st).chords;
    assert c == st.chords + g;
    assert c[..|st.chords|] == st.chords && c[|st.chords|..] == g;
    GroupOnsets(Off, st.active, 0, st.cur - st.chordLast);
  }

  lemma OpenSounding(st: State, notes: seq<int>)
    requires ChordMessages(st.chords) && InRange(notes)
    ensures ChordTrack(OpenChord(st, notes))
  {
    if notes != [] {
      var o := OpenChord(st, notes);
      var g := Group(On, ChordChannel, notes, ChordVelocity, st.cur - st.chordLast);
      assert o.chords == st.chords + g && o.active == notes;
      assert Last(o.chords, |notes|) == g;
      GroupMessages(st.chords, On, notes, st.cur - st.chordLast);
      GroupOnsets(On, notes, ChordVelocity, st.cur - st.chordLast);
    }
  }

  lemma ReplaceTrack(st: State, notes: seq<int>)
    requires ChordTrack(st) && InRange(notes)
    ensures ChordTrack(OpenChord(CloseChord(st), notes))
  {
    if st.active != [] {
      GroupMessages(st.chords, Off, st.active, st.cur - st.chordLast);
    }
    OpenSounding(CloseChord(st), notes);
  }

  lemma ChordStepTrack(st: State, tok: string)
    requires ChordTrack(st) && ChordStep(st, tok).Ok?
    ensures ChordTrack(ChordStep(st, tok).value)
  {
    ReplaceTrack(st, ParseChord(tok).value);
  }

  lemma SoundingSame(st: State, s: State)
    requires ChordTrack(st) && s.chords == st.chords && s.active == st.active
    ensures ChordTrack(s)
  {
  }

  /** Only a chord token touches the chord track, and it keeps its shape. */
  lemma StepChordTrack(cfg: Settings, toks: seq<string>, i: nat, st: State)
    requires i < |toks| && Playable(cfg) && ChordTrack(st) && StepToken(cfg, toks, i, st).Ok?
    ensures ChordTrack(StepToken(cfg, toks, i, st).value.0)
  {
    var tok := toks[i];
    var s := StepToken(cfg, toks, i, st).value.0;
    if IsBar(tok) {
      assert s == Bar(cfg, st).value;
      SoundingSame(st, s);
    } else if MatchRest(tok).Some? {
      MatchRestWellFormed(tok);
      assert s == Rest(cfg, st, MatchRest(tok).value);
      SoundingSame(st, s);
    } else if IsChordToken(tok) && MatchNote(tok, MainTie).None? {
      ChordStepTrack(st, tok);
    } else {
      MatchNoteWellFormed(tok, MainTie);
      assert s == NoteStep(cfg, toks, i, st, MatchNote(tok, MainTie).value).0;
      SoundingSame(st, s);
    }
  }

  lemma {:induction false} RunChordTrack(cfg: Settings, toks: seq<string>, i: nat, st: State)
    requires i <= |toks| && Playable(cfg) && ChordTrack(st) && Run(cfg, toks, i, st).Ok?
    ensures ChordTrack(Run(cfg, toks, i, st).value)
    decreases |toks| - i
  {
    if i < |toks| {
      var next := StepToken(cfg, toks, i, st).value;
      StepChordTrack(cfg, toks, i, st);
      RunChordTrack(cfg, toks, next.1, next.0);
    }
  }

  /** The closing code releases the chord still sounding: one note-off per onset, in order. */
  lemma FinishReleases(cfg: Settings, st: State)
    requires Sounding(st) && st.active != [] && Finish(cfg, st).Ok?
    ensures var c := Finish(cfg, st).value.chords;
      |c| == |st.chords| + |st.active| && c[..|st.chords|] == st.chords
      && Releases(c[|st.chords|..], Last(st.chords, |st.active|))
  {
    var left := cfg.beatsPerMeasure - st.measure;
    var padded := if left > Eps then st.(melody := st.melody + [Event(Off, MelodyChannel, 0, 0, Ticks(left))],
                                         cur := st.cur + Ticks(left))
                  else st;
    assert Finish(cfg, st).value.chords == CloseChord(padded).chords;
    assert padded.chords == st.chords && padded.active == st.active;
    ReleaseMatches(padded);
  }

  lemma FinishChords(cfg: Settings, st: State)
    requires ChordMessages(st.chords) && InRange(st.active) && Finish(cfg, st).Ok?
    ensures ChordMessages(Finish(cfg, st).value.chords)
  {
    var left := cfg.beatsPerMeasure - st.measure;
    var padCur := if left > Eps then st.cur + Ticks(left) else st.cur;
    if st.active != [] {
      GroupMessages(st.chords, Off, st.active, padCur - st.chordLast);
      assert Finish(cfg, st).value.chords == st.chords + Group(Off, ChordChannel, st.active, 0, padCur - st.chordLast);
    }
  }

  /** Every message of the chord track of a written file is on channel 1, at the chord velocities, with its note in range. */
  lemma CompileChords(meta: map<string, string>, toks: seq<string>, metroOn: bool, accent: int, regular: int)
    requires Compile(meta, toks, metroOn, accent, regular).Ok?
    ensures ChordMessages(Compile(meta, toks, metroOn, accent, regular).value.chords)
  {
    CompileParts(meta, toks, metroOn, accent, regular);
    var cfg := SettingsOf(meta).value;
    RunChordTrack(cfg, toks, 0, Init);
    FinishChords(cfg, Run(cfg, toks, 0, Init).value);
  }

  // ------------------------------------------------------------------
  // Ties

  /** The next token links on exactly when it is a note of the same pitch. */
  lemma LinkIff(cfg: Settings, tok: string, pitch: int)
    requires Playable(cfg)
    ensures Link(cfg, tok, pitch).Some? <==> SamePitchNote(cfg, tok, pitch)
  {
    if MatchNote(tok, MainTie).Some? {
      MatchNoteWellFormed(tok, MainTie);
    }
  }

  /** Every token a chain merges links on. */
  lemma {:induction false} ChainLinked(links: seq<Option<(real, bool)>>, j: nat, tie: bool)
    requires j < |links|
    ensures forall k | j < k <= Chain(links, j, tie).1 :: links[k].Some?
    decreases |links| - j
  {
    if tie && j + 1 < |links| && links[j + 1].Some? {
      ChainLinked(links, j + 1, links[j + 1].value.1);
    }
  }

  /** A chain stops before a token that links on only when the last merged note is not tied. */
  lemma {:induction false} ChainMaximal(links: seq<Option<(real, bool)>>, j: nat, tie: bool)
    requires j < |links|
    ensures var e := Chain(links, j, tie).1;
      e + 1 < |links| && links[e + 1].Some? ==>
        if e == j then !tie else links[e].Some? && !links[e].value.1
    decreases |links| - j
  {
    if tie && j + 1 < |links| && links[j + 1].Some? {
      ChainMaximal(links, j + 1, links[j + 1].value.1);
    }
  }

  /** Every note the tie loop merges has the pitch of the note it extends. */
  lemma TieRunSame(cfg: Settings, toks: seq<string>, j: nat, pitch: int, tie: bool)
    requires j < |toks| && Playable(cfg)
    ensures forall k | j < k <= TieRun(cfg, toks, j, pitch, tie).1 :: SamePitchNote(cfg, toks[k], pitch)
  {
    var links := Links(cfg, toks, pitch);
    ChainLinked(links, j, tie);
    forall k | j < k <= TieRun(cfg, toks, j, pitch, tie).1 ensures SamePitchNote(cfg, toks[k], pitch) {
      LinkIff(cfg, toks[k], pitch);
    }
  }

  /** When the token after the chain would link on, the last merged note is not tied. */
  lemma TieRunEnds(cfg: Settings, toks: seq<string>, j: nat, pitch: int, tie: bool)
    requires j < |toks| && Playable(cfg)
    ensures var e := TieRun(cfg, toks, j, pitch, tie).1;
      e + 1 < |toks| && Link(cfg, toks[e + 1], pitch).Some? ==>
        if e == j then !tie else Link(cfg, toks[e], pitch).Some? && !Link(cfg, toks[e], pitch).value.1
  {
    var links := Links(cfg, toks, pitch);
    ChainMaximal(links, j, tie);
    var e := Chain(links, j, tie).1;
    assert TieRun(cfg, toks, j, pitch, tie).1 == e;
    if e + 1 < |toks| {
      assert links[e + 1] == Link(cfg, toks[e + 1], pitch);
      assert links[e] == Link(cfg, toks[e], pitch);
    }
  }

  /** A token that links on is a note, and the tie it carries on is its own. */
  lemma LinkTie(cfg: Settings, tok: string, pitch: int)
    requires Playable(cfg) && Link(cfg, tok, pitch).Some?
    ensures MatchNote(tok, MainTie).Some? && Link(cfg, tok, pitch).value.1 == MatchNote(tok, MainTie).value.tie
  {
  }

  /**
   * The tie loop stops early only where the chain really ends: when a note
   * of the same pitch follows the last merged note, that note was not tied.
   */
  lemma TieRunMaximal(cfg: Settings, toks: seq<string>, j: nat, pitch: int, tie: bool)
    requires j < |toks| && Playable(cfg)
    ensures var e := TieRun(cfg, toks, j, pitch, tie).1;
      e + 1 < |toks| && SamePitchNote(cfg, toks[e + 1], pitch) ==>
        if e == j then !tie
        else MatchNote(toks[e], MainTie).Some? && !MatchNote(toks[e], MainTie).value.tie
  {
    var e := TieRun(cfg, toks, j, pitch, tie).1;
    TieRunEnds(cfg, toks, j, pitch, tie);
    if e + 1 < |toks| {
      LinkIff(cfg, toks[e + 1], pitch);
      if e != j && Link(cfg, toks[e], pitch).Some? {
        LinkTie(cfg, toks[e], pitch);
      }
    }
  }

  // ------------------------------------------------------------------
  // Bar lines

  /**
   * A bar line raises exactly when the measure holds more than its beats
   * (with the `1e-6` tolerance); otherwise it pads the missing beats, rounded
   * down to whole ticks, onto the waiting time and opens a new measure.
   */
  lemma BarSpec(cfg: Settings, st: State)
    ensures Bar(cfg, st).Err? <==> st.measure > cfg.beatsPerMeasure + Eps
    ensures Bar(cfg, st).Err? ==> Bar(cfg, st).error == ValueError(MeasureOverflow)
    ensures Bar(cfg, st).Ok? ==>
      var s := Bar(cfg, st).value;
      var pad := s.cur - st.cur;
      var left := cfg.beatsPerMeasure - st.measure;
      s.measure == 0.0 && s.delta == st.delta + pad
      && s.melody == st.melody && s.chords == st.chords && s.active == st.active && s.chordLast == st.chordLast
      && (left > Eps ==> 0 <= pad && pad as real <= left * TicksPerBeat as real < pad as real + 1.0)
      && (left <= Eps ==> pad == 0)
  {
    TruncBounds((cfg.beatsPerMeasure - st.measure) * TicksPerBeat as real);
  }

  /** A score that ends on a bar line gets a whole measure of silence more. */
  lemma BarThenFinish(cfg: Settings, st: State)
    requires Bar(cfg, st).Ok? && cfg.beatsPerMeasure > Eps
    ensures Finish(cfg, Bar(cfg, st).value).Ok?
    ensures Finish(cfg, Bar(cfg, st).value).value.melody
            == st.melody + [Event(Off, MelodyChannel, 0, 0, Ticks(cfg.beatsPerMeasure))]
  {
    assert Bar(cfg, st).value.measure == 0.0;
    assert cfg.beatsPerMeasure - 0.0 == cfg.beatsPerMeasure;
  }
}
