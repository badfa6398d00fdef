/**
 * `build_midi` (main.py lines 179-336): the tokens of a parsed score become
 * the melody track (channel 0), the chord track (channel 1) and, on request,
 * a metronome track (channel 9). Durations are exact reals; `int()` on a
 * float is `Trunc`.
 */
module Compiler {
  import opened Results
  import opened Tables
  import opened Utils
  import opened Tokens
  import opened ChordSymbols
  import opened Events
  import opened Config

  /** The tolerance of the bar checks, `1e-6` beats. */
  const Eps: real := 0.000001

  /** Python's `int()` on a float: truncation toward zero. */
  function Trunc(x: real): int {
    if x >= 0.0 then x.Floor else -((-x).Floor)
  }

  /** Truncation moves toward zero by less than one. */
  lemma TruncBounds(x: real)
    ensures x >= 0.0 ==> 0 <= Trunc(x) && Trunc(x) as real <= x < Trunc(x) as real + 1.0
    ensures x < 0.0 ==> Trunc(x) <= 0 && Trunc(x) as real - 1.0 < x <= Trunc(x) as real
  {
  }

  /** `int(beats * TICKS_PER_BEAT)`. */
  function Ticks(beats: real): int {
    Trunc(beats * TicksPerBeat as real)
  }

  /**
   * The loop's variables: the absolute tick, the ticks the next melody
   * message waits, the beats of the open measure, the sounding chord and
   * the tick its last message was sent at, and the two tracks so far.
   */
  datatype State = State(cur: int, delta: int, measure: real, active: seq<int>, chordLast: int,
                         melody: seq<Event>, chords: seq<Event>)

  const Init: State := State(0, 0, 0.0, [], 0, [], [])

  /** What the token loop needs of the settings: a pitch for the key and a positive unit. */
  predicate Playable(cfg: Settings) {
    KnownKey(cfg.key) && cfg.unit > 0.0
  }

  predicate IsBar(tok: string) {
    tok == "|" || tok == "||"
  }

  // ------------------------------------------------------------------
  // One token

  /** A bar line: an over-full measure raises, an under-full one is padded with silence. */
  function Bar(cfg: Settings, st: State): Result<State> {
    var left := cfg.beatsPerMeasure - st.measure;
    if left < -Eps then Err(ValueError(MeasureOverflow))
    else
      var pad := if left > Eps then Ticks(left) else 0;
      Ok(st.(cur := st.cur + pad, delta := st.delta + pad, measure := 0.0))
  }

  /** A rest: time passes, the next melody message waits longer. */
  function Rest(cfg: Settings, st: State, r: RestToken): (s: State)
    requires ValidDurCode(r.dur)
    ensures s.melody == st.melody && s.chords == st.chords && s.active == st.active && s.chordLast == st.chordLast
    ensures s.cur - st.cur == s.delta - st.delta
    ensures cfg.unit >= 0.0 ==> s.cur >= st.cur
  {
    TruncBounds(Beats(r.dur, r.dots, cfg.unit) * TicksPerBeat as real);
    var beats := Beats(r.dur, r.dots, cfg.unit);
    var ticks := Ticks(beats);
    st.(cur := st.cur + ticks, delta := st.delta + ticks, measure := st.measure + beats)
  }

  /** The sounding chord is released, if there is one. */
  function CloseChord(st: State): State {
    if st.active == [] then st
    else st.(chords := st.chords + Group(Off, ChordChannel, st.active, 0, st.cur - st.chordLast),
             chordLast := st.cur)
  }

  /** The new chord sounds, unless it is empty (`O`). */
  function OpenChord(st: State, notes: seq<int>): State {
    if notes == [] then st.(active := notes)
    else st.(active := notes,
             chords := st.chords + Group(On, ChordChannel, notes, ChordVelocity, st.cur - st.chordLast),
             chordLast := st.cur)
  }

  /** A chord symbol: release the old chord, then sound the new one. */
  function ChordStep(st: State, tok: string): (r: Result<State>)
    ensures r.Err? <==> ParseChord(tok).Err?
    ensures r.Ok? ==> r.value.melody == st.melody && r.value.cur == st.cur && r.value.delta == st.delta
                      && r.value.active == ParseChord(tok).value && st.chords <= r.value.chords
  {
    match ParseChord(tok)
    case Err(e) => Err(e)
    case Ok(notes) => Ok(OpenChord(CloseChord(st), notes))
  }

  /** The pitch a note token sounds in the key of the settings. */
  function NotePitch(cfg: Settings, nt: NoteToken): int
    requires Playable(cfg) && WellFormedNote(nt)
  {
    DegreeToMidi(nt.degree, nt.acc, Shift(nt.marks), cfg.key)
  }

  /** `tok` is a note sounding `pitch`. */
  predicate SamePitchNote(cfg: Settings, tok: string, pitch: int)
    requires Playable(cfg)
  {
    match MatchNote(tok, MainTie)
    case None => false
    case Some(nt) => WellFormedNote(nt) && NotePitch(cfg, nt) == pitch
  }

  /**
   * The token after a tied note carries the tie on when it is a note of the
   * same pitch: then its beats, and whether it is tied in turn.
   */
  function Link(cfg: Settings, tok: string, pitch: int): (l: Option<(real, bool)>)
    requires Playable(cfg)
    ensures l.Some? ==> l.value.0 >= 0.0
  {
    match MatchNote(tok, MainTie)
    case None => None
    case Some(nt) =>
      MatchNoteWellFormed(tok, MainTie);
      if NotePitch(cfg, nt) != pitch then None
      else Some((Beats(nt.dur, nt.dots, cfg.unit), nt.tie))
  }

  /** What each token would add to a tie chain of `pitch`. */
  function Links(cfg: Settings, toks: seq<string>, pitch: int): (ls: seq<Option<(real, bool)>>)
    requires Playable(cfg)
    ensures |ls| == |toks| && forall k | 0 <= k < |toks| :: ls[k] == Link(cfg, toks[k], pitch)
  {
    seq(|toks|, k requires 0 <= k < |toks| => Link(cfg, toks[k], pitch))
  }

  /** Every link adds a non-negative number of beats. */
  predicate NonNegative(links: seq<Option<(real, bool)>>) {
    forall k | 0 <= k < |links| :: links[k].Some? ==> links[k].value.0 >= 0.0
  }

  /**
   * The tie chain after the note at `j`: while the current note is tied and
   * the next token links on, its beats are added. The result is the added
   * beats and the index of the last note merged.
   */
  function Chain(links: seq<Option<(real, bool)>>, j: nat, tie: bool): (r: (real, nat))
    requires j < |links|
    ensures j <= r.1 < |links|
    ensures NonNegative(links) ==> r.0 >= 0.0
    decreases |links| - j
  {
    if !tie || j + 1 >= |links| then (0.0, j)
    else match links[j + 1]
      case None => (0.0, j)
      case Some(l) =>
        var rest := Chain(links, j + 1, l.1);
        (l.0 + rest.0, rest.1)
  }

  /** The tie chain of the note of `pitch` at `j` over the score's tokens. */
  function TieRun(cfg: Settings, toks: seq<string>, j: nat, pitch: int, tie: bool): (r: (real, nat))
    requires j < |toks| && Playable(cfg)
    ensures j <= r.1 < |toks|
    ensures r.0 >= 0.0
  {
    var links := Links(cfg, toks, pitch);
    assert NonNegative(links);
    Chain(links, j, tie)
  }

  /**
   * A note and the notes tied to it: one note-on after the waiting ticks and
   * one note-off after the merged duration, on the melody channel.
   */
  function NoteStep(cfg: Settings, toks: seq<string>, i: nat, st: State, nt: NoteToken): (r: (State, nat))
    requires i < |toks| && Playable(cfg) && WellFormedNote(nt)
    ensures i < r.1 <= |toks|
  {
    var pitch := NotePitch(cfg, nt);
    var tied := TieRun(cfg, toks, i, pitch, nt.tie);
    var beats := Beats(nt.dur, nt.dots, cfg.unit) + tied.0;
    var ticks := Ticks(beats);
    (st.(melody := st.melody + [Event(On, MelodyChannel, pitch, MelodyVelocity, st.delta),
                                Event(Off, MelodyChannel, pitch, MelodyVelocity, ticks)],
         delta := 0, cur := st.cur + ticks, measure := st.measure + beats),
     tied.1 + 1)
  }

  /** The token at `i`, tried as a bar, a rest, a chord and a note in that order. */
  function StepToken(cfg: Settings, toks: seq<string>, i: nat, st: State): (r: Result<(State, nat)>)
    requires i < |toks| && Playable(cfg)
    ensures r.Ok? ==> i < r.value.1 <= |toks|
    ensures r.Ok? ==> st.melody <= r.value.0.melody && st.chords <= r.value.0.chords
  {
    var tok := toks[i];
    if IsBar(tok) then
      match Bar(cfg, st)
      case Err(e) => Err(e)
      case Ok(s) => Ok((s, i + 1))
    else match MatchRest(tok)
      case Some(rt) =>
        MatchRestWellFormed(tok);
        Ok((Rest(cfg, st, rt), i + 1))
      case None =>
        if IsChordToken(tok) && MatchNote(tok, MainTie).None? then
          match ChordStep(st, tok)
          case Err(e) => Err(e)
          case Ok(s) => Ok((s, i + 1))
        else match MatchNote(tok, MainTie)
          case None => Err(ValueError(BadToken))
          case Some(nt) =>
            MatchNoteWellFormed(tok, MainTie);
            if !DataByte(NotePitch(cfg, nt)) then Err(ValueError(DataByteRange))
            else Ok(NoteStep(cfg, toks, i, st, nt))
  }

  /** The token loop from index `i` on. */
  function Run(cfg: Settings, toks: seq<string>, i: nat, st: State): (r: Result<State>)
    requires i <= |toks| && Playable(cfg)
    ensures r.Ok? ==> st.melody <= r.value.melody && st.chords <= r.value.chords
    decreases |toks| - i
  {
    if i == |toks| then Ok(st)
    else match StepToken(cfg, toks, i, st)
      case Err(e) => Err(e)
      case Ok(next) => Run(cfg, toks, next.1, next.0)
  }

  /**
   * After the loop: the last measure is checked and padded by a note-off of
   * note 0 carrying the padding (the ticks still waiting are not sent), and
   * the sounding chord is released at the final tick.
   */
  function Finish(cfg: Settings, st: State): (r: Result<State>)
    ensures r.Err? <==> st.measure > cfg.beatsPerMeasure + Eps
    ensures r.Ok? ==> st.melody <= r.value.melody && |r.value.melody| <= |st.melody| + 1
                      && st.chords <= r.value.chords && r.value.cur >= st.cur
  {
    var left := cfg.beatsPerMeasure - st.measure;
    if left < -Eps then Err(ValueError(FinalMeasureOverflow))
    else
      var padded :=
        if left > Eps then
          var pad := Ticks(left);
          st.(melody := st.melody + [Event(Off, MelodyChannel, 0, 0, pad)], cur := st.cur + pad)
        else st;
      Ok(if padded.active == [] then padded
         else padded.(chords := padded.chords + Group(Off, ChordChannel, padded.active, 0, padded.cur - padded.chordLast)))
  }

  // ------------------------------------------------------------------
  // The metronome

  /** `int(TICKS_PER_BEAT * 4 / ts_den)`: the ticks of one beat of the time signature. */
  function BeatTicks(den: int): int
    requires den > 0
  {
    Trunc((TicksPerBeat * 4) as real / den as real)
  }

  /** `int(beat_ticks * .2)`. */
  function ClickLen(bt: int): (c: int)
    ensures bt >= 0 ==> 0 <= 5 * c <= bt < 5 * c + 5
  {
    TruncBounds(bt as real * 0.2);
    Trunc(bt as real * 0.2)
  }

  /** The loud click starts each measure. */
  function ClickVelocity(idx: nat, num: int, accent: int, regular: int): int
    requires num != 0
  {
    if idx % num == 0 then accent else regular
  }

  /**
   * The first `count` clicks: a note-on and a note-off each. Click `idx`
   * starts at `t = idx * bt`, and the loop tests `t == 0`; with a positive
   * beat that is the first click.
   */
  function Clicks(count: nat, bt: int, cl: int, num: int, accent: int, regular: int): (c: seq<Event>)
    requires num != 0
    ensures |c| == 2 * count
  {
    if count == 0 then []
    else
      var idx := count - 1;
      Clicks(idx, bt, cl, num, accent, regular)
      + [Event(On, MetroChannel, MetroNote, ClickVelocity(idx, num, accent, regular), if idx == 0 then 0 else bt - cl),
         Event(Off, MetroChannel, MetroNote, 0, cl)]
  }

  /** The number of beats `0, bt, 2 bt, ...` that start before `cur`. */
  function ClickCount(cur: int, bt: int): nat
    requires bt > 0
  {
    if cur <= 0 then 0 else (cur + bt - 1) / bt
  }

  /**
   * The metronome track, or the error its loop meets: `beat_idx % ts_num`
   * divides by zero when the numerator is 0, a click whose velocity is no
   * data byte is refused, and a zero beat length never advances past the
   * first click. Click 0 sounds the accent and click 1 the only other
   * velocity any click uses, so those two are the ones checked. `bt` is the
   * beat length `BeatTicks(den)`.
   */
  function Metronome(num: int, bt: int, cur: int, accent: int, regular: int): Result<seq<Event>> {
    if cur <= 0 then Ok([])
    else if num == 0 then Err(ZeroDivisionError)
    else if !DataByte(accent) then Err(ValueError(DataByteRange))
    else if (bt <= 0 || ClickCount(cur, bt) >= 2) && !DataByte(ClickVelocity(1, num, accent, regular)) then
      Err(ValueError(DataByteRange))
    else if bt <= 0 then Err(NonTermination)
    else Ok(Clicks(ClickCount(cur, bt), bt, ClickLen(bt), num, accent, regular))
  }

  // ------------------------------------------------------------------
  // The whole compilation

  /** The tracks written to the file; the meta messages are not modelled. */
  datatype Output = Output(melody: seq<Event>, chords: seq<Event>, metronome: Option<seq<Event>>)

  /** The largest denominator the `time_signature` meta message accepts. */
  const MaxDenominator: int := 0x8000000000000000000000000000000000000000000000000000000000000000

  /** A time signature the meta message accepts: numerator in 0..255, denominator in 1..2**255. */
  predicate SignatureFits(num: int, den: int) {
    0 <= num <= 255 && 1 <= den <= MaxDenominator
  }

  function Compile(meta: map<string, string>, toks: seq<string>, metroOn: bool, accent: int, regular: int): (r: Result<Output>)
    ensures r.Ok? ==> SettingsOf(meta).Ok? && SignatureFits(SettingsOf(meta).value.num, SettingsOf(meta).value.den)
                      && (r.value.metronome.Some? <==> metroOn)
    ensures SettingsOf(meta).Ok? && !SignatureFits(SettingsOf(meta).value.num, SettingsOf(meta).value.den) ==>
              r == Err(ValueError(MetaRange))
  {
    match SettingsOf(meta)
    case Err(e) => Err(e)
    case Ok(cfg) =>
      if !SignatureFits(cfg.num, cfg.den) then Err(ValueError(MetaRange))
      else
        SettingsValid(meta);
        match Run(cfg, toks, 0, Init)
        case Err(e) => Err(e)
        case Ok(st) =>
          match Finish(cfg, st)
          case Err(e) => Err(e)
          case Ok(fin) =>
            if !metroOn then Ok(Output(fin.melody, fin.chords, None))
            else match Metronome(cfg.num, BeatTicks(cfg.den), fin.cur, accent, regular)
              case Err(e) => Err(e)
              case Ok(click) => Ok(Output(fin.melody, fin.chords, Some(click)))
  }

  // ------------------------------------------------------------------
  // The imperative compiler

  /** The tie loop: walks forward over tied notes of the same pitch, adding their beats. */
  method TieChain(cfg: Settings, toks: seq<string>, i: nat, pitch: int, tie: bool) returns (extra: real, j: nat)
    requires i < |toks| && Playable(cfg)
    ensures (extra, j) == TieRun(cfg, toks, i, pitch, tie)
  {
    extra := 0.0;
    j := i;
    var tied := tie;
    ghost var links := Links(cfg, toks, pitch);
    ghost var goal := Chain(links, i, tie);
    while tied && j + 1 < |toks|
      invariant i <= j < |toks|
      invariant extra + Chain(links, j, tied).0 == goal.0
      invariant Chain(links, j, tied).1 == goal.1
      decreases |toks| - j
    {
      var link := Link(cfg, toks[j + 1], pitch);
      assert link == links[j + 1];
      if link.None? {
        break;
      }
      extra := extra + link.value.0;
      tied := link.value.1;
      j := j + 1;
    }
  }

  /** The bar-line branch. */
  method BarLine(cfg: Settings, st: State) returns (r: Result<State>)
    ensures r == Bar(cfg, st)
  {
    var left := cfg.beatsPerMeasure - st.measure;
    if left < -Eps {
      return Err(ValueError(MeasureOverflow));
    }
    var s := st;
    if left > Eps {
      var pad := Ticks(left);
      s := s.(delta := s.delta + pad, cur := s.cur + pad);
    }
    return Ok(s.(measure := 0.0));
  }

  /** The release loop of the chord branch. */
  method Release(st: State) returns (s: State)
    ensures s == CloseChord(st)
  {
    s := st;
    if s.active != [] {
      var chords := EmitGroup(s.chords, Off, ChordChannel, s.active, 0, s.cur - s.chordLast);
      s := s.(chords := chords, chordLast := s.cur);
    }
  }

  /** The onset loop of the chord branch. */
  method Sound(st: State, notes: seq<int>) returns (s: State)
    ensures s == OpenChord(st, notes)
  {
    s := st.(active := notes);
    if notes != [] {
      var chords := EmitGroup(s.chords, On, ChordChannel, notes, ChordVelocity, s.cur - s.chordLast);
      s := s.(chords := chords, chordLast := s.cur);
    }
  }

  /** The chord branch. */
  method Chord(st: State, tok: string) returns (r: Result<State>)
    ensures r == ChordStep(st, tok)
  {
    var s := Release(st);
    var parsed := ParseChord(tok);
    if parsed.Err? {
      return Err(parsed.error);
    }
    s := Sound(s, parsed.value);
    return Ok(s);
  }

  /** The note branch, with its tie loop. */
  method Note(cfg: Settings, toks: seq<string>, i: nat, st: State, nt: NoteToken) returns (r: (State, nat))
    requires i < |toks| && Playable(cfg) && WellFormedNote(nt)
    ensures r == NoteStep(cfg, toks, i, st, nt)
  {
    var beats := Beats(nt.dur, nt.dots, cfg.unit);
    var pitch := NotePitch(cfg, nt);
    var extra, j := TieChain(cfg, toks, i, pitch, nt.tie);
    beats := beats + extra;
    var ticks := Ticks(beats);
    var melody := st.melody + [Event(On, MelodyChannel, pitch, MelodyVelocity, st.delta),
                               Event(Off, MelodyChannel, pitch, MelodyVelocity, ticks)];
    ghost var spec := NoteStep(cfg, toks, i, st, nt);
    assert spec.1 == j + 1 && spec.0.measure == st.measure + beats;
    assert spec.0.melody == melody && spec.0.cur == st.cur + ticks;
    return (st.(melody := melody, delta := 0, cur := st.cur + ticks, measure := st.measure + beats), j + 1);
  }

  /** One pass of the token loop's body. */
  method Step(cfg: Settings, toks: seq<string>, i: nat, st: State) returns (r: Result<(State, nat)>)
    requires i < |toks| && Playable(cfg)
    ensures r == StepToken(cfg, toks, i, st)
  {
    var tok := toks[i];
    if tok == "|" || tok == "||" {
      var s := BarLine(cfg, st);
      if s.Err? {
        return Err(s.error);
      }
      return Ok((s.value, i + 1));
    }
    var mRest := MatchRest(tok);
    if mRest.Some? {
      MatchRestWellFormed(tok);
      var beats := Beats(mRest.value.dur, mRest.value.dots, cfg.unit);
      var ticks := Ticks(beats);
      return Ok((st.(delta := st.delta + ticks, cur := st.cur + ticks, measure := st.measure + beats), i + 1));
    }
    var m := MatchNote(tok, MainTie);
    if IsChordToken(tok) && m.None? {
      var s := Chord(st, tok);
      if s.Err? {
        return Err(s.error);
      }
      return Ok((s.value, i + 1));
    }
    if m.None? {
      return Err(ValueError(BadToken));
    }
    MatchNoteWellFormed(tok, MainTie);
    if !DataByte(NotePitch(cfg, m.value)) {
      return Err(ValueError(DataByteRange));
    }
    var next := Note(cfg, toks, i, st, m.value);
    return Ok(next);
  }

  /** The closing code after the loop: the last measure's padding and the final chord release. */
  method Close(cfg: Settings, st: State) returns (r: Result<State>)
    ensures r == Finish(cfg, st)
  {
    var left := cfg.beatsPerMeasure - st.measure;
    if left < -Eps {
      return Err(ValueError(FinalMeasureOverflow));
    }
    var s := st;
    if left > Eps {
      var pad := Ticks(left);
      s := s.(melody := s.melody + [Event(Off, MelodyChannel, 0, 0, pad)], cur := s.cur + pad);
    }
    if s.active != [] {
      var chords := EmitGroup(s.chords, Off, ChordChannel, s.active, 0, s.cur - s.chordLast);
      s := s.(chords := chords);
    }
    return Ok(s);
  }

  /** The metronome loop: one click per beat while the beat starts before the end of the score. */
  method MetronomeTrack(num: int, bt: int, cur: int, accent: int, regular: int) returns (r: Result<seq<Event>>)
    ensures r == Metronome(num, bt, cur, accent, regular)
  {
    var cl := ClickLen(bt);
    if cur > 0 && bt <= 0 {
      // the first click is sent and then `t` never reaches `cur`
      if num == 0 {
        return Err(ZeroDivisionError);
      }
      if !DataByte(accent) || !DataByte(ClickVelocity(1, num, accent, regular)) {
        return Err(ValueError(DataByteRange));
      }
      return Err(NonTermination);
    }
    var click: seq<Event> := [];
    var t := 0;
    var idx: nat := 0;
    while t < cur
      invariant t == idx * bt
      invariant idx > 0 ==> num != 0 && bt > 0 && t - bt < cur
      invariant idx > 0 ==> click == Clicks(idx, bt, cl, num, accent, regular)
      invariant idx == 0 ==> click == [] && t == 0
      invariant idx > 0 ==> DataByte(accent)
      invariant idx > 1 ==> DataByte(ClickVelocity(1, num, accent, regular))
      decreases cur - t
    {
      var dt := if t == 0 then 0 else bt - cl;
      if num == 0 {
        return Err(ZeroDivisionError);
      }
      assert bt > 0;
      var vel := if idx % num == 0 then accent else regular;
      if !DataByte(vel) {
        ClickRefused(num, bt, cur, accent, regular, idx);
        return Err(ValueError(DataByteRange));
      }
      assert dt == if idx == 0 then 0 else bt - cl by {
        if idx > 0 { MulAtLeast(idx, bt); }
      }
      ghost var on := Event(On, MetroChannel, MetroNote, vel, dt);
      ghost var off := Event(Off, MetroChannel, MetroNote, 0, cl);
      assert Clicks(idx + 1, bt, cl, num, accent, regular) == Clicks(idx, bt, cl, num, accent, regular) + [on, off];
      click := click + [Event(On, MetroChannel, MetroNote, vel, dt)];
      click := click + [Event(Off, MetroChannel, MetroNote, 0, cl)];
      assert (idx + 1) * bt == t + bt;
      t := t + bt;
      idx := idx + 1;
    }
    if cur > 0 {
      assert (idx - 1) * bt == t - bt;
      ClickCountOf(cur, bt, idx);
    }
    return Ok(click);
  }

  /** `build_midi` on a parsed score. */
  method BuildMidi(meta: map<string, string>, toks: seq<string>, metroOn: bool, accent: int, regular: int)
    returns (r: Result<Output>)
    ensures r == Compile(meta, toks, metroOn, accent, regular)
  {
    var settings := SettingsOf(meta);
    if settings.Err? {
      return Err(settings.error);
    }
    var cfg := settings.value;
    if !SignatureFits(cfg.num, cfg.den) {
      return Err(ValueError(MetaRange));
    }
    SettingsValid(meta);
    var st := Init;
    var i := 0;
    while i < |toks|
      invariant i <= |toks|
      invariant Run(cfg, toks, i, st) == Run(cfg, toks, 0, Init)
      decreases |toks| - i
    {
      var step := Step(cfg, toks, i, st);
      if step.Err? {
        return Err(step.error);
      }
      st, i := step.value.0, step.value.1;
    }
    var fin := Close(cfg, st);
    if fin.Err? {
      return Err(fin.error);
    }
    if !metroOn {
      return Ok(Output(fin.value.melody, fin.value.chords, None));
    }
    var beatTicks := BeatTicks(cfg.den);
    var click := MetronomeTrack(cfg.num, beatTicks, fin.value.cur, accent, regular);
    if click.Err? {
      return Err(click.error);
    }
    return Ok(Output(fin.value.melody, fin.value.chords, Some(click.value)));
  }

  // ------------------------------------------------------------------
  // Metronome properties

  /** The loop stops after exactly `ClickCount` clicks. */
  lemma ClickCountOf(cur: int, bt: int, idx: nat)
    requires bt > 0 && cur > 0 && (idx - 1) * bt < cur <= idx * bt
    ensures ClickCount(cur, bt) == idx
  {
    DivModOf(cur + bt - 1, bt, idx, cur + bt - 1 - idx * bt);
  }

  /** A second beat that starts before the end means a second click. */
  lemma MoreClicks(cur: int, bt: int)
    requires 0 < bt < cur
    ensures ClickCount(cur, bt) >= 2
  {
    var c := ClickCount(cur, bt);
    var r := (cur + bt - 1) % bt;
    assert cur + bt - 1 == c * bt + r;
  }

  /**
   * The first click the loop reaches whose velocity is no data byte is the
   * error `Metronome` states.
   */
  lemma ClickRefused(num: int, bt: int, cur: int, accent: int, regular: int, idx: nat)
    requires num != 0 && bt > 0 && idx * bt < cur
    requires idx > 0 ==> DataByte(accent)
    requires idx > 1 ==> DataByte(ClickVelocity(1, num, accent, regular))
    requires !DataByte(ClickVelocity(idx, num, accent, regular))
    ensures Metronome(num, bt, cur, accent, regular) == Err(ValueError(DataByteRange))
  {
    ClickVelocities(idx, num, accent, regular);
    if idx == 1 {
      MoreClicks(cur, bt);
    } else if idx > 1 {
      MulAtLeast(idx, bt);
    }
  }

  /** Every click sounds either the accent or the velocity of click 1. */
  lemma ClickVelocities(idx: nat, num: int, accent: int, regular: int)
    requires num != 0
    ensures ClickVelocity(idx, num, accent, regular) == accent
            || ClickVelocity(idx, num, accent, regular) == ClickVelocity(1, num, accent, regular)
  {
    if idx % num != 0 {
      assert num != 1 && num != -1;
      assert 1 % num == 1;
    }
  }

  /** The clicks start at the beats `0, bt, 2 bt, ...` before the end of the score, and no later beat does. */
  lemma ClickCountBounds(cur: int, bt: int)
    requires bt > 0 && cur > 0
    ensures ClickCount(cur, bt) >= 1
    ensures (ClickCount(cur, bt) - 1) * bt < cur <= ClickCount(cur, bt) * bt
  {
    var c := ClickCount(cur, bt);
    var r := (cur + bt - 1) % bt;
    assert cur + bt - 1 == c * bt + r;
    assert (c - 1) * bt == c * bt - bt;
  }

  /** Click `k`: its velocity marks the start of a measure, its onset waits for the rest of the beat. */
  lemma {:induction false} ClickAt(count: nat, bt: int, cl: int, num: int, accent: int, regular: int, k: nat)
    requires num != 0 && bt > 0 && k < count
    ensures Clicks(count, bt, cl, num, accent, regular)[2 * k]
            == Event(On, MetroChannel, MetroNote, if k % num == 0 then accent else regular, if k == 0 then 0 else bt - cl)
    ensures Clicks(count, bt, cl, num, accent, regular)[2 * k + 1] == Event(Off, MetroChannel, MetroNote, 0, cl)
    decreases count
  {
    if k < count - 1 {
      ClickAt(count - 1, bt, cl, num, accent, regular, k);
    }
  }

  /** The first `k` clicks of a longer run are the run of `k` clicks. */
  lemma {:induction false} ClicksPrefix(count: nat, bt: int, cl: int, num: int, accent: int, regular: int, k: nat)
    requires num != 0 && k <= count
    ensures Clicks(count, bt, cl, num, accent, regular)[..2 * k] == Clicks(k, bt, cl, num, accent, regular)
    decreases count
  {
    if k < count {
      var c := Clicks(count, bt, cl, num, accent, regular);
      assert c[..2 * (count - 1)] == Clicks(count - 1, bt, cl, num, accent, regular);
      ClicksPrefix(count - 1, bt, cl, num, accent, regular, k);
      assert c[..2 * k] == c[..2 * (count - 1)][..2 * k];
    }
  }

  /** The clicks span `(count - 1)` beats and one click. */
  lemma {:induction false} ClicksSpan(count: nat, bt: int, cl: int, num: int, accent: int, regular: int)
    requires num != 0 && bt > 0
    ensures SumDeltas(Clicks(count, bt, cl, num, accent, regular)) == if count == 0 then 0 else (count - 1) * bt + cl
    decreases count
  {
    if count > 0 {
      var idx := count - 1;
      var front := Clicks(idx, bt, cl, num, accent, regular);
      var on := Event(On, MetroChannel, MetroNote, ClickVelocity(idx, num, accent, regular), if idx == 0 then 0 else bt - cl);
      var off := Event(Off, MetroChannel, MetroNote, 0, cl);
      ClicksSpan(idx, bt, cl, num, accent, regular);
      SumDeltasPair(front, on, off);
      if idx > 0 {
        MulAtLeast(idx, bt);
        assert (count - 1) * bt == (idx - 1) * bt + bt;
      }
    }
  }

  /** Click `k` sounds at tick `k * bt`: the metronome keeps time by absolute positions. */
  lemma ClickOnset(count: nat, bt: int, cl: int, num: int, accent: int, regular: int, k: nat)
    requires num != 0 && bt > 0 && k < count
    ensures SumDeltas(Clicks(count, bt, cl, num, accent, regular)[..2 * k + 1]) == k * bt
  {
    var c := Clicks(count, bt, cl, num, accent, regular);
    ClicksPrefix(count, bt, cl, num, accent, regular, k);
    ClickAt(count, bt, cl, num, accent, regular, k);
    assert c[..2 * k + 1] == c[..2 * k] + [c[2 * k]];
    SumDeltasAppend(c[..2 * k], [c[2 * k]]);
    assert SumDeltas([c[2 * k]]) == c[2 * k].delta;
    ClicksSpan(k, bt, cl, num, accent, regular);
    if k > 0 {
      assert k * bt == (k - 1) * bt + bt;
    }
  }

  /**
   * With a positive beat and numerator the metronome has one click per beat
   * started before the last tick: the last click starts before it and the
   * next beat would start at or after it.
   */
  lemma MetronomeCovers(num: int, bt: int, cur: int, accent: int, regular: int)
    requires cur > 0 && Metronome(num, bt, cur, accent, regular).Ok?
    ensures num != 0 && bt > 0
    ensures var c := Metronome(num, bt, cur, accent, regular).value;
      var n := |c| / 2;
      |c| == 2 * n && n >= 1 && (n - 1) * bt < cur <= n * bt
  {
    ClickCountBounds(cur, bt);
  }

  /** Velocities in range, as the command line clamps them, never make the metronome raise. */
  lemma MetronomeAccepts(num: int, bt: int, cur: int, accent: int, regular: int)
    requires num != 0 && bt > 0 && DataByte(accent) && DataByte(regular)
    ensures Metronome(num, bt, cur, accent, regular).Ok?
  {
    if cur > 0 {
      ClickVelocities(1, num, accent, regular);
    }
  }

  /** Every message of the metronome track has a note and a velocity in range. */
  lemma MetronomeValid(num: int, bt: int, cur: int, accent: int, regular: int)
    requires Metronome(num, bt, cur, accent, regular).Ok?
    ensures var c := Metronome(num, bt, cur, accent, regular).value;
      forall k | 0 <= k < |c| :: DataByte(c[k].note) && DataByte(c[k].velocity)
  {
    if cur > 0 {
      var n := ClickCount(cur, bt);
      var c := Metronome(num, bt, cur, accent, regular).value;
      assert c == Clicks(n, bt, ClickLen(bt), num, accent, regular);
      forall k | 0 <= k < |c| ensures DataByte(c[k].note) && DataByte(c[k].velocity) {
        var q := k / 2;
        assert k == 2 * q || k == 2 * q + 1;
        ClickAt(n, bt, ClickLen(bt), num, accent, regular, q);
        ClickVelocities(q, num, accent, regular);
      }
    }
  }

  /** Up to a denominator of 128 a beat lasts exactly `1920 / den` ticks; past 1920 it lasts none. */
  lemma BeatTicksOf(den: int)
    requires den > 0
    ensures den <= 1920 ==> BeatTicks(den) >= 1
    ensures den > 1920 ==> BeatTicks(den) == 0
    ensures 1920 % den == 0 ==> BeatTicks(den) == 1920 / den
  {
    var x := (TicksPerBeat * 4) as real / den as real;
    assert x * den as real == 1920.0;
    if den <= 1920 {
      assert x >= 1.0;
    } else {
      assert x < 1.0;
    }
    if 1920 % den == 0 {
      var q := 1920 / den;
      assert (q * den) as real == 1920.0;
      assert x == q as real;
    }
  }
}
