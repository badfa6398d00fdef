/**
 * Chord rhythm strategies (chord_patterns.py). Each strategy appends the
 * note-on and note-off messages of one chord to a track and returns the
 * absolute tick at which it ends. The strategies are values; the track is
 * the one object they change.
 */
module ChordPatterns {
  import opened Results
  import opened Text
  import opened Tables
  import opened Events

  /** `int(0.05 * TICKS_PER_BEAT)`: the default gap between strummed strings. */
  const DefaultStrumTicks: int := 24

  datatype Pattern =
    | Block(velocity: int)
    | Arpeggio(velocity: int)
    | GuitarStrums(velocity: int, strumTicks: int)
    | RhythmicArpeggio(velocity: int, num: int, den: int)

  /** What a strategy appends and the tick it returns. */
  datatype Outcome = Outcome(events: seq<Event>, end: int)

  function Max(a: int, b: int): int { if a >= b then a else b }
  function Min(a: int, b: int): int { if a <= b then a else b }

  /** Python `int(x)` on a real: truncation toward zero. */
  function Trunc(x: real): int {
    if x >= 0.0 then x.Floor else -((-x).Floor)
  }

  /**
   * Every note-on has the strategy's velocity and is followed later by a
   * note-off of the same pitch; every note-off has velocity 0.
   */
  predicate Paired(evs: seq<Event>, velocity: int) {
    (forall i | 0 <= i < |evs| && evs[i].kind == On ::
       evs[i].velocity == velocity
       && exists j | i < j < |evs| :: evs[j].kind == Off && evs[j].note == evs[i].note)
    && (forall i | 0 <= i < |evs| && evs[i].kind == Off :: evs[i].velocity == 0)
  }

  predicate OnChordChannel(evs: seq<Event>) {
    forall i | 0 <= i < |evs| :: evs[i].channel == ChordChannel
  }

  // ------------------------------------------------------------------
  // Sorting, for the strum

  predicate Sorted(s: seq<int>) {
    forall i, j | 0 <= i < j < |s| :: s[i] <= s[j]
  }

  function Insert(x: int, s: seq<int>): (r: seq<int>)
    ensures |r| == |s| + 1
  {
    if s == [] || x <= s[0] then [x] + s else [s[0]] + Insert(x, s[1..])
  }

  /** A bound below `x` and every element of `s` stays below the insertion. */
  lemma {:induction false} InsertBound(lo: int, x: int, s: seq<int>)
    requires lo <= x && forall i | 0 <= i < |s| :: lo <= s[i]
    ensures forall i | 0 <= i < |Insert(x, s)| :: lo <= Insert(x, s)[i]
    decreases |s|
  {
    if s != [] && x > s[0] {
      InsertBound(lo, x, s[1..]);
      assert Insert(x, s) == [s[0]] + Insert(x, s[1..]);
    }
  }

  lemma {:induction false} InsertSorted(x: int, s: seq<int>)
    requires Sorted(s)
    ensures Sorted(Insert(x, s))
    decreases |s|
  {
    if s != [] && x > s[0] {
      var r := Insert(x, s[1..]);
      InsertSorted(x, s[1..]);
      InsertBound(s[0], x, s[1..]);
      assert Insert(x, s) == [s[0]] + r;
    }
  }

  lemma {:induction false} InsertPerm(x: int, s: seq<int>)
    ensures multiset(Insert(x, s)) == multiset(s) + multiset{x}
    decreases |s|
  {
    if s != [] && x > s[0] {
      InsertPerm(x, s[1..]);
      assert Insert(x, s) == [s[0]] + Insert(x, s[1..]);
      assert s == [s[0]] + s[1..];
    }
  }

  /** `sorted(notes)`: ascending, and the same pitches. */
  function SortAsc(s: seq<int>): (r: seq<int>)
    ensures |r| == |s|
  {
    if s == [] then [] else Insert(s[0], SortAsc(s[1..]))
  }

  lemma {:induction false} SortAscSpec(s: seq<int>)
    ensures Sorted(SortAsc(s)) && multiset(SortAsc(s)) == multiset(s)
  {
    if s != [] {
      SortAscSpec(s[1..]);
      InsertSorted(s[0], SortAsc(s[1..]));
      InsertPerm(s[0], SortAsc(s[1..]));
      assert s == [s[0]] + s[1..];
    }
  }

  // ------------------------------------------------------------------
  // What each strategy appends

  /** Arpeggio: an (on, off) pair per note in order; the first on carries `dt`. */
  function ArpPairs(notes: seq<int>, velocity: int, dt: int, single: int): (r: seq<Event>)
    ensures |r| == 2 * |notes|
  {
    if notes == [] then []
    else ArpPairs(notes[..|notes| - 1], velocity, dt, single)
         + [Event(On, ChordChannel, notes[|notes| - 1], velocity, if |notes| == 1 then dt else 0),
            Event(Off, ChordChannel, notes[|notes| - 1], 0, single)]
  }

  /** Strum: the note-ons, the first after `dt`, each later one `strum` after the previous. */
  function StrumOns(notes: seq<int>, velocity: int, dt: int, strum: int): (r: seq<Event>)
    ensures |r| == |notes|
  {
    if notes == [] then []
    else StrumOns(notes[..|notes| - 1], velocity, dt, strum)
         + [Event(On, ChordChannel, notes[|notes| - 1], velocity, if |notes| == 1 then dt else strum)]
  }

  /** The rhythm of a time signature, in beats per slot. */
  function RhythmOf(num: int, den: int): (r: seq<real>)
    ensures forall i | 0 <= i < |r| :: r[i] == 1.0 || r[i] == 0.5
  {
    if num == 4 && den == 4 then [1.0, 1.0, 1.0, 1.0]
    else if num == 3 && den == 4 then [1.0, 1.0, 1.0]
    else if num == 6 && den == 8 then [0.5, 0.5, 0.5, 0.5, 0.5, 0.5]
    else if num == 2 && den == 4 then [1.0, 1.0]
    else seq(if num > 0 then num else 0, _ => 1.0)
  }

  /** Ticks of each slot: `int(p * TICKS_PER_BEAT * 4 / den)`; a zero denominator raises. */
  function SlotTicks(num: int, den: int): (r: Result<seq<int>>)
    ensures r.Err? <==> den == 0
    ensures r.Ok? ==> |r.value| == |RhythmOf(num, den)|
    ensures r.Ok? ==> forall i | 0 <= i < |r.value| ::
                        r.value[i] == Trunc(RhythmOf(num, den)[i] * ((4 * TicksPerBeat) as real / den as real))
  {
    if den == 0 then Err(ZeroDivisionError)
    else
      var beatTick := (4 * TicksPerBeat) as real / den as real;
      var rhythm := RhythmOf(num, den);
      Ok(seq(|rhythm|, i requires 0 <= i < |rhythm| => Trunc(rhythm[i] * beatTick)))
  }

  /**
   * The rhythmic loop from a given state: pair `k` plays note `k % n` for
   * the smaller of its slot and what remains; it stops when nothing remains
   * or a slot is not positive.
   */
  function RhythmPairs(notes: seq<int>, velocity: int, slots: seq<int>, remaining: int, k: nat, dt: int): seq<Event>
    requires notes != [] && slots != []
    decreases remaining
  {
    if remaining <= 0 then []
    else
      var cur := Min(slots[k % |slots|], remaining);
      if cur <= 0 then []
      else
        [Event(On, ChordChannel, notes[k % |notes|], velocity, dt),
         Event(Off, ChordChannel, notes[k % |notes|], 0, cur)]
        + RhythmPairs(notes, velocity, slots, remaining - cur, k + 1, 0)
  }

  /** Ticks the rhythmic loop consumes from a given state. */
  function RhythmConsumed(slots: seq<int>, remaining: int, k: nat): int
    requires slots != []
    decreases remaining
  {
    if remaining <= 0 then 0
    else
      var cur := Min(slots[k % |slots|], remaining);
      if cur <= 0 then 0 else cur + RhythmConsumed(slots, remaining - cur, k + 1)
  }

  /** Ticks the strums of `n` notes take before the last string sounds. */
  function StrumTotal(strum: int, n: nat): int {
    if n > 1 then strum * (n - 1) else 0
  }

  /** The messages of a strum over `sorted`: the note-ons `strum` ticks apart, then every note-off after the rest of the duration. */
  function StrumPlan(sorted: seq<int>, velocity: int, dt: int, strum: int, d: int): seq<Event> {
    StrumOns(sorted, velocity, dt, strum) + Group(Off, ChordChannel, sorted, 0, Max(1, d - StrumTotal(strum, |sorted|)))
  }

  /**
   * The messages each strategy's `generate_events` constructs, in order,
   * and the tick it returns, before the message constructor checks them.
   */
  function Planned(p: Pattern, notes: seq<int>, start: int, duration: int, last: int): Result<Outcome> {
    if notes == [] then Ok(Outcome([], last))
    else
      var dt := Max(0, start - last);
      var d := Max(1, duration);
      match p
      case Block(vel) =>
        Ok(Outcome(Group(On, ChordChannel, notes, vel, dt) + Group(Off, ChordChannel, notes, 0, d), start + d))
      case Arpeggio(vel) =>
        var single := d / |notes|;
        Ok(Outcome(ArpPairs(notes, vel, dt, single), start + |notes| * single))
      case GuitarStrums(vel, strum) =>
        Ok(Outcome(StrumPlan(SortAsc(notes), vel, dt, strum, d), start + d))
      case RhythmicArpeggio(vel, num, den) =>
        match SlotTicks(num, den)
        case Err(e) => Err(e)
        case Ok(slots) =>
          if slots == [] then Err(ZeroDivisionError)
          else Ok(Outcome(RhythmPairs(notes, vel, slots, d, 0, dt), start + RhythmConsumed(slots, d, 0)))
  }

  /**
   * `generate_events`: the planned messages, unless the constructor refuses
   * one of them (a note or the velocity outside 0..127), which raises.
   */
  function Generate(p: Pattern, notes: seq<int>, start: int, duration: int, last: int): Result<Outcome> {
    match Planned(p, notes, start, duration, last)
    case Err(e) => Err(e)
    case Ok(o) => if Accepted(o.events) < |o.events| then Err(ValueError(DataByteRange)) else Ok(o)
  }

  /** A strategy whose messages are `evs`, ending at `end`, returns `end` or raises, and leaves the accepted messages. */
  lemma Settled(p: Pattern, notes: seq<int>, start: int, duration: int, last: int, evs: seq<Event>, end: int)
    requires Planned(p, notes, start, duration, last) == Ok(Outcome(evs, end))
    ensures Sent(Planned(p, notes, start, duration, last)) == evs[..Accepted(evs)]
    ensures EndOf(Generate(p, notes, start, duration, last))
            == if Accepted(evs) == |evs| then Ok(end) else Err(ValueError(DataByteRange))
  {
  }

  /** What `generate_events` returns: the end tick, or the exception. */
  function EndOf(g: Result<Outcome>): Result<int> {
    match g
    case Ok(o) => Ok(o.end)
    case Err(e) => Err(e)
  }

  /** The messages on the track when `generate_events` returns or raises: those built before a refusal. */
  function Sent(planned: Result<Outcome>): seq<Event> {
    match planned
    case Err(_) => []
    case Ok(o) => o.events[..Accepted(o.events)]
  }

  /** `get_chord_pattern`: the four names, in any case; anything else is a block chord. */
  function GetChordPattern(name: string, num: int, den: int): (p: Pattern)
    ensures p.velocity == ChordVelocity
  {
    var key := LowerStr(name);
    if key == "block" then Block(ChordVelocity)
    else if key == "arpeggio" then Arpeggio(ChordVelocity)
    else if key == "guitar" then GuitarStrums(ChordVelocity, DefaultStrumTicks)
    else if key == "rhythmic" then RhythmicArpeggio(ChordVelocity, num, den)
    else Block(ChordVelocity)
  }

  // ------------------------------------------------------------------
  // The strategies as the program runs them, appending to a track

  method GenerateBlock(vel: int, notes: seq<int>, start: int, duration: int, track: Track, last: int)
    returns (r: Result<int>)
    modifies track
    ensures r == EndOf(Generate(Block(vel), notes, start, duration, last))
    ensures track.events == old(track.events) + Sent(Planned(Block(vel), notes, start, duration, last))
  {
    if notes == [] {
      return Ok(last);
    }
    var dt := Max(0, start - last);
    var d := Max(1, duration);
    Settled(Block(vel), notes, start, duration, last,
            Group(On, ChordChannel, notes, vel, dt) + Group(Off, ChordChannel, notes, 0, d), start + d);
    var ok := PressAll(notes, vel, dt, track);
    AcceptedAppend(Group(On, ChordChannel, notes, vel, dt), Group(Off, ChordChannel, notes, 0, d));
    if ok {
      ok := ReleaseAll(notes, d, track);
    }
    r := if ok then Ok(start + d) else Err(ValueError(DataByteRange));
  }

  /** The block strategy's note-on loop: every note at once, the first after `dt` ticks. */
  method PressAll(notes: seq<int>, vel: int, dt: int, track: Track) returns (ok: bool)
    modifies track
    ensures var ons := Group(On, ChordChannel, notes, vel, dt);
      ok == (Accepted(ons) == |ons|) && track.events == old(track.events) + ons[..Accepted(ons)]
  {
    ghost var before := track.events;
    ghost var ons := Group(On, ChordChannel, notes, vel, dt);
    var first := true;
    var k := 0;
    while k < |notes|
      invariant 0 <= k <= |notes| && first == (k == 0)
      invariant k <= Accepted(ons) && track.events == before + ons[..k]
    {
      GroupAt(On, ChordChannel, notes, vel, dt, k);
      SendNext(ons, k);
      ok := track.Send(Event(On, ChordChannel, notes[k], vel, if first then dt else 0));
      if !ok {
        return;
      }
      first := false;
      k := k + 1;
    }
    assert ons[..k] == ons;
    ok := true;
  }


  method GenerateArpeggio(vel: int, notes: seq<int>, start: int, duration: int, track: Track, last: int)
    returns (r: Result<int>)
    modifies track
    ensures r == EndOf(Generate(Arpeggio(vel), notes, start, duration, last))
    ensures track.events == old(track.events) + Sent(Planned(Arpeggio(vel), notes, start, duration, last))
  {
    if notes == [] {
      return Ok(last);
    }
    var dt := Max(0, start - last);
    var d := Max(1, duration);
    var single := d / |notes|;
    Settled(Arpeggio(vel), notes, start, duration, last, ArpPairs(notes, vel, dt, single), start + |notes| * single);
    var ok, currentTick := Arpeggiate(notes, vel, dt, single, start, track);
    r := if ok then Ok(currentTick) else Err(ValueError(DataByteRange));
  }

  /** The arpeggio loop: each note on and off in turn, `single` ticks long, stopping at the first refusal. */
  method Arpeggiate(notes: seq<int>, vel: int, dt: int, single: int, start: int, track: Track)
    returns (ok: bool, currentTick: int)
    modifies track
    ensures var pairs := ArpPairs(notes, vel, dt, single);
      ok == (Accepted(pairs) == |pairs|) && track.events == old(track.events) + pairs[..Accepted(pairs)]
    ensures ok ==> currentTick == start + |notes| * single
  {
    ghost var before := track.events;
    ghost var pairs := ArpPairs(notes, vel, dt, single);
    var currentTime := dt;
    currentTick := start;
    var k := 0;
    while k < |notes|
      invariant 0 <= k <= |notes|
      invariant currentTime == if k == 0 then dt else 0
      invariant currentTick == start + k * single
      invariant 2 * k <= Accepted(pairs) && track.events == before + pairs[..2 * k]
    {
      ArpAt(notes, vel, dt, single, k);
      PairNext(pairs, 2 * k);
      ok := track.Send(Event(On, ChordChannel, notes[k], vel, currentTime));
      if ok {
        ok := track.Send(Event(Off, ChordChannel, notes[k], 0, single));
      }
      if !ok {
        return;
      }
      currentTime := 0;
      currentTick := currentTick + single;
      k := k + 1;
    }
    assert pairs[..2 * k] == pairs;
    ok := true;
  }


  /** The next two messages of a list sent one at a time: both appended, or the first refusal. */
  lemma PairNext(evs: seq<Event>, k: nat)
    requires k + 1 < |evs| && k <= Accepted(evs)
    ensures !Sendable(evs[k]) ==> Accepted(evs) == k
    ensures Sendable(evs[k]) && !Sendable(evs[k + 1]) ==>
              Accepted(evs) == k + 1 && evs[..k + 1] == evs[..k] + [evs[k]]
    ensures Sendable(evs[k]) && Sendable(evs[k + 1]) ==>
              k + 2 <= Accepted(evs) && evs[..k + 2] == evs[..k] + [evs[k], evs[k + 1]]
  {
    SendNext(evs, k);
    if Sendable(evs[k]) {
      SendNext(evs, k + 1);
      var head := evs[..k];
      assert evs[..k + 1] == head + [evs[k]];
      assert evs[..k + 2] == evs[..k + 1] + [evs[k + 1]];
      assert head + [evs[k]] + [evs[k + 1]] == head + [evs[k], evs[k + 1]];
    }
  }

  /** The "all notes end together" loop shared by the block and strum strategies. */
  method ReleaseAll(notes: seq<int>, d: int, track: Track) returns (ok: bool)
    modifies track
    ensures var offs := Group(Off, ChordChannel, notes, 0, d);
      ok == (Accepted(offs) == |offs|) && track.events == old(track.events) + offs[..Accepted(offs)]
  {
    ghost var before := track.events;
    ghost var offs := Group(Off, ChordChannel, notes, 0, d);
    var first := true;
    var k := 0;
    while k < |notes|
      invariant 0 <= k <= |notes| && first == (k == 0)
      invariant k <= Accepted(offs) && track.events == before + offs[..k]
    {
      GroupAt(Off, ChordChannel, notes, 0, d, k);
      SendNext(offs, k);
      ok := track.Send(Event(Off, ChordChannel, notes[k], 0, if first then d else 0));
      if !ok {
        return;
      }
      first := false;
      k := k + 1;
    }
    assert offs[..k] == offs;
    ok := true;
  }

  /** The strum loop: note-ons `strum` ticks apart, the first after `dt`. */
  method Strum(vel: int, strum: int, sorted: seq<int>, dt0: int, track: Track) returns (ok: bool)
    modifies track
    ensures var ons := StrumOns(sorted, vel, dt0, strum);
      ok == (Accepted(ons) == |ons|) && track.events == old(track.events) + ons[..Accepted(ons)]
  {
    ghost var before := track.events;
    ghost var ons := StrumOns(sorted, vel, dt0, strum);
    var dt := dt0;
    var k := 0;
    while k < |sorted|
      invariant 0 <= k <= |sorted|
      invariant dt == if k == 0 then dt0 else 0
      invariant k <= Accepted(ons) && track.events == before + ons[..k]
    {
      var timeVal := if k == 0 then dt else strum;
      StrumAt(sorted, vel, dt0, strum, k);
      SendNext(ons, k);
      ok := track.Send(Event(On, ChordChannel, sorted[k], vel, timeVal));
      if !ok {
        return;
      }
      dt := 0;
      k := k + 1;
    }
    assert ons[..k] == ons;
    ok := true;
  }

  method GenerateGuitar(vel: int, strum: int, notes: seq<int>, start: int, duration: int, track: Track, last: int)
    returns (r: Result<int>)
    modifies track
    ensures r == EndOf(Generate(GuitarStrums(vel, strum), notes, start, duration, last))
    ensures track.events == old(track.events) + Sent(Planned(GuitarStrums(vel, strum), notes, start, duration, last))
  {
    if notes == [] {
      return Ok(last);
    }
    var dt := Max(0, start - last);
    var d := Max(1, duration);
    var sorted := SortAsc(notes);
    GuitarPlanned(vel, strum, notes, start, duration, last);
    Settled(GuitarStrums(vel, strum), notes, start, duration, last, StrumPlan(sorted, vel, dt, strum, d), start + d);
    var ok := StrumChord(vel, strum, sorted, dt, d, track);
    r := if ok then Ok(start + d) else Err(ValueError(DataByteRange));
  }

  /** The strum's note-ons, then its note-offs, stopping at the first message the constructor refuses. */
  method StrumChord(vel: int, strum: int, sorted: seq<int>, dt: int, d: int, track: Track) returns (ok: bool)
    modifies track
    ensures var evs := StrumPlan(sorted, vel, dt, strum, d);
      ok == (Accepted(evs) == |evs|) && track.events == old(track.events) + evs[..Accepted(evs)]
  {
    ghost var before := track.events;
    var noteDuration := Max(1, d - StrumTotal(strum, |sorted|));
    ghost var ons := StrumOns(sorted, vel, dt, strum);
    ghost var offs := Group(Off, ChordChannel, sorted, 0, noteDuration);
    assert StrumPlan(sorted, vel, dt, strum, d) == ons + offs;
    AcceptedAppend(ons, offs);
    ok := Strum(vel, strum, sorted, dt, track);
    if !ok {
      return;
    }
    assert ons[..Accepted(ons)] == ons;
    ok := ReleaseAll(sorted, noteDuration, track);
    assert track.events == before + (ons + offs[..Accepted(offs)]);
  }



  /** One pair of the rhythmic loop sent after messages that were all accepted. */
  lemma PairSent(sent: seq<Event>, pair: seq<Event>, rest: seq<Event>)
    requires |pair| == 2 && Accepted(sent) == |sent|
    ensures var all := sent + (pair + rest);
      && (!Sendable(pair[0]) ==> Accepted(all) == |sent| && all[..|sent|] == sent)
      && (Sendable(pair[0]) && !Sendable(pair[1]) ==>
            Accepted(all) == |sent| + 1 && all[..|sent| + 1] == sent + [pair[0]])
      && (Sendable(pair[0]) && Sendable(pair[1]) ==>
            Accepted(sent + pair) == |sent + pair| && (sent + pair) + rest == all)
  {
    var all := sent + (pair + rest);
    assert all[..|sent|] == sent;
    assert all[..|sent| + 1] == sent + [pair[0]];
    assert all[|sent|] == pair[0] && all[|sent| + 1] == pair[1];
    if !Sendable(pair[0]) {
      AcceptedUnique(all, |sent|);
    } else if !Sendable(pair[1]) {
      AcceptedUnique(all, |sent| + 1);
    } else {
      var sp := sent + pair;
      assert sp[|sent|] == pair[0] && sp[|sent| + 1] == pair[1];
      AcceptedUnique(sp, |sp|);
    }
  }

  /** The `while remaining_ticks > 0` loop of the rhythmic strategy. */
  method RhythmLoop(vel: int, notes: seq<int>, slots: seq<int>, start: int, d: int, dt: int, track: Track)
    returns (ok: bool, end: int)
    requires notes != [] && slots != []
    modifies track
    ensures var pairs := RhythmPairs(notes, vel, slots, d, 0, dt);
      ok == (Accepted(pairs) == |pairs|) && track.events == old(track.events) + pairs[..Accepted(pairs)]
    ensures ok ==> end == start + RhythmConsumed(slots, d, 0)
  {
    ghost var before := track.events;
    ghost var pairs := RhythmPairs(notes, vel, slots, d, 0, dt);
    ghost var sent: seq<Event> := [];
    var noteIdx: nat := 0;
    var currentTick := start;
    var remaining := d;
    var currentTime := dt;
    while remaining > 0
      invariant sent + RhythmPairs(notes, vel, slots, remaining, noteIdx, currentTime) == pairs
      invariant Accepted(sent) == |sent| && track.events == before + sent
      invariant currentTick + RhythmConsumed(slots, remaining, noteIdx) == start + RhythmConsumed(slots, d, 0)
      decreases remaining
    {
      var cur := Min(slots[noteIdx % |slots|], remaining);
      if cur <= 0 {
        break;
      }
      var note := notes[noteIdx % |notes|];
      ghost var pair := [Event(On, ChordChannel, note, vel, currentTime), Event(Off, ChordChannel, note, 0, cur)];
      ghost var rest := RhythmPairs(notes, vel, slots, remaining - cur, noteIdx + 1, 0);
      assert RhythmPairs(notes, vel, slots, remaining, noteIdx, currentTime) == pair + rest;
      PairSent(sent, pair, rest);
      ok := track.Send(Event(On, ChordChannel, note, vel, currentTime));
      if ok {
        ok := track.Send(Event(Off, ChordChannel, note, 0, cur));
      }
      if !ok {
        end := currentTick;
        return;
      }
      sent := sent + pair;
      currentTime := 0;
      remaining := remaining - cur;
      currentTick := currentTick + cur;
      noteIdx := noteIdx + 1;
    }
    assert sent == pairs;
    ok := true;
    end := currentTick;
  }

  method GenerateRhythmic(vel: int, num: int, den: int, notes: seq<int>, start: int, duration: int,
                          track: Track, last: int)
    returns (r: Result<int>)
    modifies track
    ensures r == EndOf(Generate(RhythmicArpeggio(vel, num, den), notes, start, duration, last))
    ensures track.events == old(track.events) + Sent(Planned(RhythmicArpeggio(vel, num, den), notes, start, duration, last))
  {
    if notes == [] {
      return Ok(last);
    }
    var dt := Max(0, start - last);
    var d := Max(1, duration);
    if den == 0 {
      return Err(ZeroDivisionError);
    }
    var beatTick := (4 * TicksPerBeat) as real / den as real;
    var rhythm := RhythmOf(num, den);
    var slots := seq(|rhythm|, i requires 0 <= i < |rhythm| => Trunc(rhythm[i] * beatTick));
    assert SlotTicks(num, den) == Ok(slots);
    if slots == [] {
      return Err(ZeroDivisionError);
    }
    var ok, end := RhythmLoop(vel, notes, slots, start, d, dt, track);
    r := if ok then Ok(end) else Err(ValueError(DataByteRange));
  }

  /** `pattern.generate_events(...)`, dispatched on the strategy. */
  method GenerateEvents(p: Pattern, notes: seq<int>, start: int, duration: int, track: Track, last: int)
    returns (r: Result<int>)
    modifies track
    ensures r == EndOf(Generate(p, notes, start, duration, last))
    ensures track.events == old(track.events) + Sent(Planned(p, notes, start, duration, last))
  {
    match p
    case Block(vel) =>
      r := GenerateBlock(vel, notes, start, duration, track, last);
    case Arpeggio(vel) =>
      r := GenerateArpeggio(vel, notes, start, duration, track, last);
    case GuitarStrums(vel, strum) =>
      r := GenerateGuitar(vel, strum, notes, start, duration, track, last);
    case RhythmicArpeggio(vel, num, den) =>
      r := GenerateRhythmic(vel, num, den, notes, start, duration, track, last);
  }

  // ------------------------------------------------------------------
  // Properties of what the strategies append

  /** Pair `j` of an interleaved list: a note-on and the note-off of the same pitch. */
  predicate GoodPair(evs: seq<Event>, j: int, velocity: int)
    requires 0 <= j && 2 * j + 1 < |evs|
  {
    evs[2 * j].kind == On && evs[2 * j + 1].kind == Off
    && evs[2 * j].note == evs[2 * j + 1].note
    && evs[2 * j].velocity == velocity && evs[2 * j + 1].velocity == 0
  }

  lemma {:induction false} InterleavedPaired(evs: seq<Event>, velocity: int)
    requires |evs| % 2 == 0
    requires forall j | 0 <= j && 2 * j + 1 < |evs| :: GoodPair(evs, j, velocity)
    ensures Paired(evs, velocity)
  {
    forall i | 0 <= i < |evs|
      ensures evs[i].kind == On ==>
                (evs[i].velocity == velocity
                 && exists j | i < j < |evs| :: evs[j].kind == Off && evs[j].note == evs[i].note)
      ensures evs[i].kind == Off ==> evs[i].velocity == 0
    {
      var j := i / 2;
      assert 2 * j + 1 < |evs|;
      assert GoodPair(evs, j, velocity);
      if i % 2 == 0 {
        assert i == 2 * j;
        assert evs[i + 1].kind == Off && evs[i + 1].note == evs[i].note;
      } else {
        assert i == 2 * j + 1;
      }
    }
  }

  /** Ons then offs, pitch for pitch in the same order, pair as required. */
  lemma {:induction false} BlockedPaired(ons: seq<Event>, offs: seq<Event>, velocity: int)
    requires |ons| == |offs|
    requires forall i | 0 <= i < |ons| :: ons[i].kind == On && ons[i].velocity == velocity
    requires forall i | 0 <= i < |offs| ::
               offs[i].kind == Off && offs[i].velocity == 0 && offs[i].note == ons[i].note
    ensures Paired(ons + offs, velocity)
  {
    var evs := ons + offs;
    forall i | 0 <= i < |evs| && evs[i].kind == On
      ensures exists j | i < j < |evs| :: evs[j].kind == Off && evs[j].note == evs[i].note
    {
      assert i < |ons|;
      assert evs[|ons| + i] == offs[i];
    }
  }

  lemma {:induction false} ArpAt(notes: seq<int>, velocity: int, dt: int, single: int, i: nat)
    requires i < |notes|
    ensures ArpPairs(notes, velocity, dt, single)[2 * i]
            == Event(On, ChordChannel, notes[i], velocity, if i == 0 then dt else 0)
    ensures ArpPairs(notes, velocity, dt, single)[2 * i + 1] == Event(Off, ChordChannel, notes[i], 0, single)
    decreases |notes|
  {
    if i < |notes| - 1 {
      ArpAt(notes[..|notes| - 1], velocity, dt, single, i);
    }
  }

  lemma {:induction false} StrumAt(notes: seq<int>, velocity: int, dt: int, strum: int, i: nat)
    requires i < |notes|
    ensures StrumOns(notes, velocity, dt, strum)[i]
            == Event(On, ChordChannel, notes[i], velocity, if i == 0 then dt else strum)
    decreases |notes|
  {
    if i < |notes| - 1 {
      StrumAt(notes[..|notes| - 1], velocity, dt, strum, i);
    }
  }

  /** An arpeggio spans `dt` and then `single` ticks per note. */
  lemma {:induction false} ArpSum(notes: seq<int>, velocity: int, dt: int, single: int)
    ensures SumDeltas(ArpPairs(notes, velocity, dt, single)) == (if notes == [] then 0 else dt) + |notes| * single
    decreases |notes|
  {
    if notes != [] {
      var init := notes[..|notes| - 1];
      ArpSum(init, velocity, dt, single);
      SumDeltasPair(ArpPairs(init, velocity, dt, single),
                    Event(On, ChordChannel, notes[|notes| - 1], velocity, if |notes| == 1 then dt else 0),
                    Event(Off, ChordChannel, notes[|notes| - 1], 0, single));
    }
  }

  /** A strum spans `dt` and then `strum` ticks per later string. */
  lemma {:induction false} StrumSum(notes: seq<int>, velocity: int, dt: int, strum: int)
    ensures SumDeltas(StrumOns(notes, velocity, dt, strum)) == if notes == [] then 0 else dt + strum * (|notes| - 1)
    decreases |notes|
  {
    if notes != [] {
      var init := notes[..|notes| - 1];
      StrumSum(init, velocity, dt, strum);
      var r := StrumOns(notes, velocity, dt, strum);
      assert r[..|r| - 1] == StrumOns(init, velocity, dt, strum);
      if init != [] {
        assert strum * (|init| - 1) + strum == strum * (|notes| - 1);
      }
    }
  }

  /** The rhythmic loop emits whole pairs. */
  lemma {:induction false} RhythmEven(notes: seq<int>, velocity: int, slots: seq<int>, remaining: int, k: nat, dt: int)
    requires notes != [] && slots != []
    ensures |RhythmPairs(notes, velocity, slots, remaining, k, dt)| % 2 == 0
    decreases remaining
  {
    if remaining > 0 && Min(slots[k % |slots|], remaining) > 0 {
      RhythmEven(notes, velocity, slots, remaining - Min(slots[k % |slots|], remaining), k + 1, 0);
    }
  }

  /** Pair `j` of the rhythmic loop, counted from slot `k`. */
  lemma {:induction false} RhythmPairAt(notes: seq<int>, velocity: int, slots: seq<int>, remaining: int, k: nat, dt: int, j: nat)
    requires notes != [] && slots != []
    requires 2 * j + 1 < |RhythmPairs(notes, velocity, slots, remaining, k, dt)|
    ensures var r := RhythmPairs(notes, velocity, slots, remaining, k, dt);
      GoodPair(r, j, velocity) && r[2 * j].note == notes[(k + j) % |notes|]
      && r[2 * j].delta == (if j == 0 then dt else 0) && r[2 * j].channel == ChordChannel
      && r[2 * j + 1].channel == ChordChannel
    decreases j
  {
    var r := RhythmPairs(notes, velocity, slots, remaining, k, dt);
    var cur := Min(slots[k % |slots|], remaining);
    var rest := RhythmPairs(notes, velocity, slots, remaining - cur, k + 1, 0);
    var on := Event(On, ChordChannel, notes[k % |notes|], velocity, dt);
    var off := Event(Off, ChordChannel, notes[k % |notes|], 0, cur);
    assert r == [on, off] + rest;
    if j == 0 {
      assert r[0] == on && r[1] == off;
    } else {
      RhythmPairAt(notes, velocity, slots, remaining - cur, k + 1, 0, j - 1);
      assert r[2 * j] == rest[2 * (j - 1)] && r[2 * j + 1] == rest[2 * (j - 1) + 1];
      assert (k + 1) + (j - 1) == k + j;
    }
  }

  /** Pair `j` of the rhythmic loop plays note `(k + j) % n`; only the first waits `dt`. */
  lemma RhythmAt(notes: seq<int>, velocity: int, slots: seq<int>, remaining: int, k: nat, dt: int)
    requires notes != [] && slots != []
    ensures var r := RhythmPairs(notes, velocity, slots, remaining, k, dt);
      |r| % 2 == 0
      && forall j | 0 <= j && 2 * j + 1 < |r| ::
           GoodPair(r, j, velocity) && r[2 * j].note == notes[(k + j) % |notes|]
           && r[2 * j].delta == (if j == 0 then dt else 0) && r[2 * j].channel == ChordChannel
           && r[2 * j + 1].channel == ChordChannel
  {
    var r := RhythmPairs(notes, velocity, slots, remaining, k, dt);
    RhythmEven(notes, velocity, slots, remaining, k, dt);
    forall j | 0 <= j && 2 * j + 1 < |r|
      ensures GoodPair(r, j, velocity) && r[2 * j].note == notes[(k + j) % |notes|]
              && r[2 * j].delta == (if j == 0 then dt else 0) && r[2 * j].channel == ChordChannel
              && r[2 * j + 1].channel == ChordChannel
    {
      RhythmPairAt(notes, velocity, slots, remaining, k, dt, j);
    }
  }

  /** The rhythmic loop spans `dt` and then the ticks it consumes. */
  lemma {:induction false} RhythmSum(notes: seq<int>, velocity: int, slots: seq<int>, remaining: int, k: nat, dt: int)
    requires notes != [] && slots != []
    ensures var r := RhythmPairs(notes, velocity, slots, remaining, k, dt);
      SumDeltas(r) == (if r == [] then 0 else dt) + RhythmConsumed(slots, remaining, k)
    decreases remaining
  {
    if remaining > 0 && Min(slots[k % |slots|], remaining) > 0 {
      var cur := Min(slots[k % |slots|], remaining);
      var note := notes[k % |notes|];
      var rest := RhythmPairs(notes, velocity, slots, remaining - cur, k + 1, 0);
      RhythmSum(notes, velocity, slots, remaining - cur, k + 1, 0);
      var pair := [Event(On, ChordChannel, note, velocity, dt), Event(Off, ChordChannel, note, 0, cur)];
      SumDeltasAppend(pair, rest);
      SumDeltasPair([], pair[0], pair[1]);
      assert [] + [pair[0], pair[1]] == pair;
    }
  }

  /** When every slot is positive the loop consumes exactly what remains. */
  lemma {:induction false} RhythmConsumesAll(slots: seq<int>, remaining: int, k: nat)
    requires slots != [] && remaining >= 0
    requires forall i | 0 <= i < |slots| :: slots[i] > 0
    ensures RhythmConsumed(slots, remaining, k) == remaining
    decreases remaining
  {
    if remaining > 0 {
      var cur := Min(slots[k % |slots|], remaining);
      RhythmConsumesAll(slots, remaining - cur, k + 1);
    }
  }

  /** A chord with no notes appends nothing and returns `last_tick`, whatever the strategy. */
  lemma EmptyChord(p: Pattern, start: int, duration: int, last: int)
    ensures Generate(p, [], start, duration, last) == Ok(Outcome([], last))
  {
  }

  lemma {:induction false} BlockPaired(vel: int, notes: seq<int>, dt: int, d: int)
    ensures var evs := Group(On, ChordChannel, notes, vel, dt) + Group(Off, ChordChannel, notes, 0, d);
      Paired(evs, vel) && OnChordChannel(evs)
  {
    var ons := Group(On, ChordChannel, notes, vel, dt);
    var offs := Group(Off, ChordChannel, notes, 0, d);
    var evs := ons + offs;
    forall i | 0 <= i < |notes|
      ensures ons[i].kind == On && ons[i].velocity == vel && ons[i].channel == ChordChannel
      ensures offs[i].kind == Off && offs[i].velocity == 0 && offs[i].note == ons[i].note
      ensures offs[i].channel == ChordChannel
    {
      GroupAt(On, ChordChannel, notes, vel, dt, i);
      GroupAt(Off, ChordChannel, notes, 0, d, i);
    }
    BlockedPaired(ons, offs, vel);
    forall i | 0 <= i < |evs| ensures evs[i].channel == ChordChannel {
      if i >= |notes| { assert evs[i] == offs[i - |notes|]; }
    }
  }

  lemma {:induction false} ArpeggioPaired(vel: int, notes: seq<int>, dt: int, single: int)
    ensures var evs := ArpPairs(notes, vel, dt, single);
      Paired(evs, vel) && OnChordChannel(evs)
  {
    var evs := ArpPairs(notes, vel, dt, single);
    forall j | 0 <= j && 2 * j + 1 < |evs|
      ensures GoodPair(evs, j, vel) && evs[2 * j].channel == ChordChannel && evs[2 * j + 1].channel == ChordChannel
    {
      ArpAt(notes, vel, dt, single, j);
    }
    InterleavedPaired(evs, vel);
    forall i | 0 <= i < |evs| ensures evs[i].channel == ChordChannel {
      var j := i / 2;
      assert 2 * j + 1 < |evs|;
      assert i == 2 * j || i == 2 * j + 1;
    }
  }

  lemma {:induction false} GuitarPaired(vel: int, strum: int, sorted: seq<int>, dt: int, off: int)
    ensures var evs := StrumOns(sorted, vel, dt, strum) + Group(Off, ChordChannel, sorted, 0, off);
      Paired(evs, vel) && OnChordChannel(evs)
  {
    var ons := StrumOns(sorted, vel, dt, strum);
    var offs := Group(Off, ChordChannel, sorted, 0, off);
    var evs := ons + offs;
    forall i | 0 <= i < |sorted|
      ensures ons[i].kind == On && ons[i].velocity == vel && ons[i].channel == ChordChannel
      ensures offs[i].kind == Off && offs[i].velocity == 0 && offs[i].note == ons[i].note
      ensures offs[i].channel == ChordChannel
    {
      StrumAt(sorted, vel, dt, strum, i);
      GroupAt(Off, ChordChannel, sorted, 0, off, i);
    }
    BlockedPaired(ons, offs, vel);
    forall i | 0 <= i < |evs| ensures evs[i].channel == ChordChannel {
      if i >= |sorted| { assert evs[i] == offs[i - |sorted|]; }
    }
  }

  lemma {:induction false} RhythmicPaired(notes: seq<int>, vel: int, slots: seq<int>, d: int, dt: int)
    requires notes != [] && slots != []
    ensures var evs := RhythmPairs(notes, vel, slots, d, 0, dt);
      Paired(evs, vel) && OnChordChannel(evs)
  {
    var evs := RhythmPairs(notes, vel, slots, d, 0, dt);
    RhythmAt(notes, vel, slots, d, 0, dt);
    InterleavedPaired(evs, vel);
    forall i | 0 <= i < |evs| ensures evs[i].channel == ChordChannel {
      var j := i / 2;
      assert 2 * j + 1 < |evs|;
      assert i == 2 * j || i == 2 * j + 1;
    }
  }

  /** Every strategy pairs each note-on with a later note-off of its pitch, on the chord channel. */
  lemma {:induction false} GeneratePaired(p: Pattern, notes: seq<int>, start: int, duration: int, last: int)
    requires Generate(p, notes, start, duration, last).Ok?
    ensures Paired(Generate(p, notes, start, duration, last).value.events, p.velocity)
    ensures OnChordChannel(Generate(p, notes, start, duration, last).value.events)
  {
    if notes != [] {
      var dt := Max(0, start - last);
      var d := Max(1, duration);
      match p
      case Block(vel) => BlockPaired(vel, notes, dt, d);
      case Arpeggio(vel) => ArpeggioPaired(vel, notes, dt, d / |notes|);
      case GuitarStrums(vel, strum) =>
        GuitarPaired(vel, strum, SortAsc(notes), dt, Max(1, d - StrumTotal(strum, |notes|)));
      case RhythmicArpeggio(vel, num, den) => RhythmicPaired(notes, vel, SlotTicks(num, den).value, d, dt);
    }
  }

  // ------------------------------------------------------------------
  // The constructor's range check

  /** Every message plays one of the chord's notes, at the given velocity or at 0. */
  predicate Drawn(evs: seq<Event>, notes: seq<int>, velocity: int) {
    forall i | 0 <= i < |evs| :: evs[i].note in notes && (evs[i].velocity == velocity || evs[i].velocity == 0)
  }

  /** Every note of the chord is started by some note-on at the given velocity. */
  predicate Covers(evs: seq<Event>, notes: seq<int>, velocity: int) {
    forall k | 0 <= k < |notes| ::
      exists i | 0 <= i < |evs| :: evs[i].kind == On && evs[i].note == notes[k] && evs[i].velocity == velocity
  }

  /** What happens to the track: all of `Generate`'s messages, or those built before the first refused one. */
  lemma SentMessages(p: Pattern, notes: seq<int>, start: int, duration: int, last: int)
    ensures var g := Generate(p, notes, start, duration, last);
      var pl := Planned(p, notes, start, duration, last);
      && (g.Ok? ==> Sent(pl) == g.value.events)
      && (g == Err(ValueError(DataByteRange)) ==>
            pl.Ok? && |Sent(pl)| < |pl.value.events|
            && Sent(pl) == pl.value.events[..|Sent(pl)|] && !Sendable(pl.value.events[|Sent(pl)|]))
      && (g.Err? && g != Err(ValueError(DataByteRange)) ==> Sent(pl) == [])
  {
  }

  lemma {:induction false} BlockDrawn(vel: int, notes: seq<int>, dt: int, d: int)
    ensures var evs := Group(On, ChordChannel, notes, vel, dt) + Group(Off, ChordChannel, notes, 0, d);
      Drawn(evs, notes, vel) && Covers(evs, notes, vel)
  {
    var ons := Group(On, ChordChannel, notes, vel, dt);
    var evs := ons + Group(Off, ChordChannel, notes, 0, d);
    forall i | 0 <= i < |evs| ensures evs[i].note in notes && (evs[i].velocity == vel || evs[i].velocity == 0) {
      if i < |notes| {
        GroupAt(On, ChordChannel, notes, vel, dt, i);
      } else {
        GroupAt(Off, ChordChannel, notes, 0, d, i - |notes|);
      }
    }
    forall k | 0 <= k < |notes|
      ensures exists i | 0 <= i < |evs| :: evs[i].kind == On && evs[i].note == notes[k] && evs[i].velocity == vel
    {
      GroupAt(On, ChordChannel, notes, vel, dt, k);
      assert evs[k] == ons[k];
    }
  }

  lemma {:induction false} ArpeggioDrawn(vel: int, notes: seq<int>, dt: int, single: int)
    ensures var evs := ArpPairs(notes, vel, dt, single);
      Drawn(evs, notes, vel) && Covers(evs, notes, vel)
  {
    var evs := ArpPairs(notes, vel, dt, single);
    forall i | 0 <= i < |evs| ensures evs[i].note in notes && (evs[i].velocity == vel || evs[i].velocity == 0) {
      ArpAt(notes, vel, dt, single, i / 2);
      assert i == 2 * (i / 2) || i == 2 * (i / 2) + 1;
    }
    forall k | 0 <= k < |notes|
      ensures exists i | 0 <= i < |evs| :: evs[i].kind == On && evs[i].note == notes[k] && evs[i].velocity == vel
    {
      ArpAt(notes, vel, dt, single, k);
      assert evs[2 * k].kind == On;
    }
  }

  lemma {:induction false} GuitarDrawn(vel: int, strum: int, notes: seq<int>, dt: int, off: int)
    ensures var sorted := SortAsc(notes);
      var evs := StrumOns(sorted, vel, dt, strum) + Group(Off, ChordChannel, sorted, 0, off);
      Drawn(evs, notes, vel) && Covers(evs, notes, vel)
  {
    var sorted := SortAsc(notes);
    var ons := StrumOns(sorted, vel, dt, strum);
    var evs := ons + Group(Off, ChordChannel, sorted, 0, off);
    SortAscSpec(notes);
    forall i | 0 <= i < |evs| ensures evs[i].note in notes && (evs[i].velocity == vel || evs[i].velocity == 0) {
      var j := if i < |sorted| then i else i - |sorted|;
      if i < |sorted| {
        StrumAt(sorted, vel, dt, strum, i);
      } else {
        GroupAt(Off, ChordChannel, sorted, 0, off, j);
      }
      assert evs[i].note == sorted[j];
      assert sorted[j] in multiset(sorted);
    }
    forall k | 0 <= k < |notes|
      ensures exists i | 0 <= i < |evs| :: evs[i].kind == On && evs[i].note == notes[k] && evs[i].velocity == vel
    {
      assert notes[k] in multiset(sorted);
      var i :| 0 <= i < |sorted| && sorted[i] == notes[k];
      StrumAt(sorted, vel, dt, strum, i);
      assert evs[i] == ons[i];
    }
  }

  lemma {:induction false} RhythmicDrawn(notes: seq<int>, vel: int, slots: seq<int>, d: int, dt: int)
    requires notes != [] && slots != []
    ensures Drawn(RhythmPairs(notes, vel, slots, d, 0, dt), notes, vel)
  {
    var evs := RhythmPairs(notes, vel, slots, d, 0, dt);
    RhythmAt(notes, vel, slots, d, 0, dt);
    forall i | 0 <= i < |evs| ensures evs[i].note in notes && (evs[i].velocity == vel || evs[i].velocity == 0) {
      var j := i / 2;
      assert i == 2 * j || i == 2 * j + 1;
      assert 2 * j + 1 < |evs| && GoodPair(evs, j, vel);
      var m := j % |notes|;
      assert evs[2 * j].note == notes[m] && 0 <= m < |notes|;
    }
  }

  /** Each strategy only plays the chord's own notes, at its velocity for the onsets and 0 for the releases. */
  lemma {:induction false} PlannedDrawn(p: Pattern, notes: seq<int>, start: int, duration: int, last: int)
    requires Planned(p, notes, start, duration, last).Ok?
    ensures Drawn(Planned(p, notes, start, duration, last).value.events, notes, p.velocity)
    ensures !p.RhythmicArpeggio? ==> Covers(Planned(p, notes, start, duration, last).value.events, notes, p.velocity)
  {
    if notes != [] {
      var dt := Max(0, start - last);
      var d := Max(1, duration);
      match p
      case Block(vel) => BlockDrawn(vel, notes, dt, d);
      case Arpeggio(vel) => ArpeggioDrawn(vel, notes, dt, d / |notes|);
      case GuitarStrums(vel, strum) =>
        var sorted := SortAsc(notes);
        var off := Max(1, d - StrumTotal(strum, |sorted|));
        assert StrumPlan(sorted, vel, dt, strum, d) == StrumOns(sorted, vel, dt, strum) + Group(Off, ChordChannel, sorted, 0, off);
        GuitarDrawn(vel, strum, notes, dt, off);
      case RhythmicArpeggio(vel, num, den) => RhythmicDrawn(notes, vel, SlotTicks(num, den).value, d, dt);
    }
  }

  /** Notes and a velocity in 0..127 are never refused: `generate_events` appends every planned message. */
  lemma {:induction false} GenerateInRange(p: Pattern, notes: seq<int>, start: int, duration: int, last: int)
    requires DataByte(p.velocity) && forall k | 0 <= k < |notes| :: DataByte(notes[k])
    ensures Generate(p, notes, start, duration, last) == Planned(p, notes, start, duration, last)
  {
    var pl := Planned(p, notes, start, duration, last);
    if pl.Ok? {
      PlannedDrawn(p, notes, start, duration, last);
      var evs := pl.value.events;
      forall i | 0 <= i < |evs| ensures Sendable(evs[i]) {
        assert evs[i].note in notes;
      }
      AcceptedUnique(evs, |evs|);
    }
  }

  /**
   * The block, arpeggio and strum strategies raise exactly when the chord
   * has notes and one of them or the velocity lies outside 0..127.
   */
  lemma {:induction false} GenerateOkIff(p: Pattern, notes: seq<int>, start: int, duration: int, last: int)
    requires !p.RhythmicArpeggio?
    ensures Generate(p, notes, start, duration, last).Ok?
            <==> notes == [] || (DataByte(p.velocity) && forall k | 0 <= k < |notes| :: DataByte(notes[k]))
    ensures Generate(p, notes, start, duration, last).Err? ==>
              Generate(p, notes, start, duration, last) == Err(ValueError(DataByteRange))
  {
    if notes != [] {
      assert Planned(p, notes, start, duration, last).Ok?;
      if DataByte(p.velocity) && forall k | 0 <= k < |notes| :: DataByte(notes[k]) {
        GenerateInRange(p, notes, start, duration, last);
      } else {
        PlannedDrawn(p, notes, start, duration, last);
        var evs := Planned(p, notes, start, duration, last).value.events;
        var k :| 0 <= k < |notes| && (!DataByte(p.velocity) || !DataByte(notes[k]));
        var i :| 0 <= i < |evs| && evs[i].kind == On && evs[i].note == notes[k] && evs[i].velocity == p.velocity;
        assert !Sendable(evs[i]);
        assert Accepted(evs) < |evs|;
        assert Generate(p, notes, start, duration, last) == Err(ValueError(DataByteRange));
      }
    }
  }

  /**
   * The rhythmic strategy raises on the range check exactly when a pair it
   * plays has its note, or the velocity, outside 0..127.
   */
  lemma {:induction false} RhythmicOkIff(vel: int, num: int, den: int, notes: seq<int>, start: int, duration: int, last: int)
    requires notes != [] && Planned(RhythmicArpeggio(vel, num, den), notes, start, duration, last).Ok?
    ensures var evs := Planned(RhythmicArpeggio(vel, num, den), notes, start, duration, last).value.events;
      Generate(RhythmicArpeggio(vel, num, den), notes, start, duration, last).Ok?
      <==> (evs == [] || DataByte(vel)) && forall j | 0 <= j < |evs| / 2 :: DataByte(notes[j % |notes|])
  {
    var slots := SlotTicks(num, den).value;
    var dt := Max(0, start - last);
    var evs := RhythmPairs(notes, vel, slots, Max(1, duration), 0, dt);
    assert Planned(RhythmicArpeggio(vel, num, den), notes, start, duration, last).value.events == evs;
    RhythmAt(notes, vel, slots, Max(1, duration), 0, dt);
    PairsAccepted(evs, notes, vel);
  }

  /** Pairs that cycle through `notes` at one velocity are all accepted exactly when that velocity and every note played fit a data byte. */
  lemma PairsAccepted(evs: seq<Event>, notes: seq<int>, vel: int)
    requires notes != [] && |evs| % 2 == 0
    requires forall j | 0 <= j && 2 * j + 1 < |evs| :: GoodPair(evs, j, vel) && evs[2 * j].note == notes[(0 + j) % |notes|]
    ensures Accepted(evs) == |evs|
            <==> (evs == [] || DataByte(vel)) && forall j | 0 <= j < |evs| / 2 :: DataByte(notes[j % |notes|])
  {
    if (evs == [] || DataByte(vel)) && forall j | 0 <= j < |evs| / 2 :: DataByte(notes[j % |notes|]) {
      forall i | 0 <= i < |evs| ensures Sendable(evs[i]) {
        var j := i / 2;
        assert 2 * j + 1 < |evs| && GoodPair(evs, j, vel);
        assert evs[2 * j].note == notes[j % |notes|];
        assert i == 2 * j || i == 2 * j + 1;
      }
      AcceptedUnique(evs, |evs|);
    } else {
      var i;
      if evs != [] && !DataByte(vel) {
        assert GoodPair(evs, 0, vel);
        i := 0;
      } else {
        var j :| 0 <= j < |evs| / 2 && !DataByte(notes[j % |notes|]);
        assert 2 * j + 1 < |evs| && evs[2 * j].note == notes[j % |notes|];
        i := 2 * j;
      }
      assert !Sendable(evs[i]);
    }
  }


  /** The pitches of a list of messages, in order. */
  function Pitches(evs: seq<Event>): (r: seq<int>)
    ensures |r| == |evs| && forall i | 0 <= i < |evs| :: r[i] == evs[i].note
  {
    seq(|evs|, i requires 0 <= i < |evs| => evs[i].note)
  }

  lemma {:induction false} RhythmConsumedBounds(slots: seq<int>, remaining: int, k: nat)
    requires slots != []
    ensures 0 <= RhythmConsumed(slots, remaining, k) <= Max(0, remaining)
    decreases remaining
  {
    if remaining > 0 {
      var cur := Min(slots[k % |slots|], remaining);
      if cur > 0 {
        RhythmConsumedBounds(slots, remaining - cur, k + 1);
      }
    }
  }

  /** A block chord holds every note for the whole (at least one tick) duration. */
  lemma {:induction false} BlockTiming(vel: int, notes: seq<int>, start: int, duration: int, last: int)
    requires notes != []
    ensures var o := Planned(Block(vel), notes, start, duration, last).value;
      |o.events| == 2 * |notes|
      && o.end == start + Max(1, duration)
      && SumDeltas(o.events) == Max(0, start - last) + Max(1, duration)
  {
    var dt := Max(0, start - last);
    var d := Max(1, duration);
    SumDeltasAppend(Group(On, ChordChannel, notes, vel, dt), Group(Off, ChordChannel, notes, 0, d));
    GroupSum(On, ChordChannel, notes, vel, dt);
    GroupSum(Off, ChordChannel, notes, 0, d);
  }

  /**
   * An arpeggio plays the notes one after another, `duration // n` ticks
   * each; it ends no later than the duration and its messages span exactly
   * up to the tick it returns.
   */
  lemma {:induction false} ArpeggioTiming(vel: int, notes: seq<int>, start: int, duration: int, last: int)
    requires notes != []
    ensures var o := Planned(Arpeggio(vel), notes, start, duration, last).value;
      var single := Max(1, duration) / |notes|;
      |o.events| == 2 * |notes|
      && o.end == start + |notes| * single
      && start <= o.end <= start + Max(1, duration)
      && Max(1, duration) - o.end + start < |notes|
      && SumDeltas(o.events) == Max(0, start - last) + (o.end - start)
  {
    var d := Max(1, duration);
    var single := d / |notes|;
    ArpSum(notes, vel, Max(0, start - last), single);
    assert d == |notes| * single + d % |notes|;
  }

  /** The strum's planned messages: the sorted note-ons, then the note-offs together. */
  lemma GuitarPlanned(vel: int, strum: int, notes: seq<int>, start: int, duration: int, last: int)
    requires notes != []
    ensures Planned(GuitarStrums(vel, strum), notes, start, duration, last)
      == Ok(Outcome(StrumPlan(SortAsc(notes), vel, Max(0, start - last), strum, Max(1, duration)), start + Max(1, duration)))
  {
  }

  /**
   * A strum starts the notes in ascending order `strum` ticks apart and
   * releases them together; its messages span the duration exactly when
   * the strum is shorter than it, and otherwise run past the tick it
   * returns.
   */
  lemma {:induction false} GuitarTiming(vel: int, strum: int, notes: seq<int>, start: int, duration: int, last: int)
    requires notes != []
    ensures var o := Planned(GuitarStrums(vel, strum), notes, start, duration, last).value;
      var total := StrumTotal(strum, |notes|);
      var d := Max(1, duration);
      |o.events| == 2 * |notes|
      && o.end == start + d
      && SumDeltas(o.events) == Max(0, start - last) + total + Max(1, d - total)
      && (SumDeltas(o.events) == Max(0, start - last) + d <==> total < d)
  {
    var dt := Max(0, start - last);
    var d := Max(1, duration);
    var sorted := SortAsc(notes);
    var total := StrumTotal(strum, |notes|);
    var ons := StrumOns(sorted, vel, dt, strum);
    var offs := Group(Off, ChordChannel, sorted, 0, Max(1, d - total));
    var o := Planned(GuitarStrums(vel, strum), notes, start, duration, last).value;
    GuitarPlanned(vel, strum, notes, start, duration, last);
    SumDeltasAppend(ons, offs);
    StrumSum(sorted, vel, dt, strum);
    GroupSum(Off, ChordChannel, sorted, 0, Max(1, d - total));
    assert SumDeltas(o.events) == dt + total + Max(1, d - total);
  }

  /** The strum's note-ons rise in pitch, use each chord note once, and the note-offs follow in the same order. */
  lemma {:induction false} GuitarOrder(vel: int, strum: int, notes: seq<int>, start: int, duration: int, last: int)
    requires notes != []
    ensures var evs := Planned(GuitarStrums(vel, strum), notes, start, duration, last).value.events;
      |evs| == 2 * |notes|
      && Sorted(Pitches(evs[..|notes|]))
      && multiset(Pitches(evs[..|notes|])) == multiset(notes)
      && Pitches(evs[|notes|..]) == Pitches(evs[..|notes|])
  {
    var dt := Max(0, start - last);
    var d := Max(1, duration);
    var sorted := SortAsc(notes);
    var total := StrumTotal(strum, |notes|);
    var ons := StrumOns(sorted, vel, dt, strum);
    var offs := Group(Off, ChordChannel, sorted, 0, Max(1, d - total));
    var evs := ons + offs;
    GuitarPlanned(vel, strum, notes, start, duration, last);
    assert evs[..|notes|] == ons;
    assert evs[|notes|..] == offs;
    StrumPitches(sorted, vel, dt, strum);
    GroupPitches(Off, ChordChannel, sorted, 0, Max(1, d - total));
    SortAscSpec(notes);
  }

  lemma StrumPitches(notes: seq<int>, velocity: int, dt: int, strum: int)
    ensures Pitches(StrumOns(notes, velocity, dt, strum)) == notes
  {
    forall i | 0 <= i < |notes| ensures StrumOns(notes, velocity, dt, strum)[i].note == notes[i] {
      StrumAt(notes, velocity, dt, strum, i);
    }
  }

  lemma GroupPitches(kind: Kind, channel: int, notes: seq<int>, velocity: int, dt: int)
    ensures Pitches(Group(kind, channel, notes, velocity, dt)) == notes
  {
    forall i | 0 <= i < |notes| ensures Group(kind, channel, notes, velocity, dt)[i].note == notes[i] {
      GroupAt(kind, channel, notes, velocity, dt, i);
    }
  }

  /**
   * The rhythmic arpeggio ends no later than the duration, its messages
   * span exactly up to the tick it returns, and it fills the duration
   * whenever every slot of the rhythm is positive.
   */
  lemma {:induction false} RhythmicTiming(vel: int, num: int, den: int, notes: seq<int>, start: int, duration: int, last: int)
    requires notes != [] && Planned(RhythmicArpeggio(vel, num, den), notes, start, duration, last).Ok?
    ensures var o := Planned(RhythmicArpeggio(vel, num, den), notes, start, duration, last).value;
      start <= o.end <= start + Max(1, duration)
      && SumDeltas(o.events) == (if o.events == [] then 0 else Max(0, start - last)) + (o.end - start)
      && ((forall i | 0 <= i < |SlotTicks(num, den).value| :: SlotTicks(num, den).value[i] > 0)
          ==> o.end == start + Max(1, duration))
  {
    var slots := SlotTicks(num, den).value;
    var d := Max(1, duration);
    RhythmSum(notes, vel, slots, d, 0, Max(0, start - last));
    RhythmConsumedBounds(slots, d, 0);
    if forall i | 0 <= i < |slots| :: slots[i] > 0 {
      RhythmConsumesAll(slots, d, 0);
    }
  }

  /** The rhythms of the four named time signatures, in ticks. */
  lemma {:induction false} SlotTable()
    ensures SlotTicks(4, 4) == Ok([480, 480, 480, 480])
    ensures SlotTicks(3, 4) == Ok([480, 480, 480])
    ensures SlotTicks(6, 8) == Ok([120, 120, 120, 120, 120, 120])
    ensures SlotTicks(2, 4) == Ok([480, 480])
  {
    assert (4 * TicksPerBeat) as real / 4 as real == 480.0;
    assert (4 * TicksPerBeat) as real / 8 as real == 240.0;
    assert SlotTicks(4, 4).value == [480, 480, 480, 480];
    assert SlotTicks(3, 4).value == [480, 480, 480];
    assert SlotTicks(6, 8).value == [120, 120, 120, 120, 120, 120];
    assert SlotTicks(2, 4).value == [480, 480];
  }

  /** Any other signature repeats one whole-note-over-`den` slot `num` times. */
  lemma {:induction false} SlotDefault(num: int, den: int)
    requires den != 0
    requires !(num == 4 && den == 4) && !(num == 3 && den == 4) && !(num == 6 && den == 8) && !(num == 2 && den == 4)
    ensures |SlotTicks(num, den).value| == Max(0, num)
    ensures forall i | 0 <= i < |SlotTicks(num, den).value| ::
              SlotTicks(num, den).value[i] == Trunc((4 * TicksPerBeat) as real / den as real)
  {
    var r := RhythmOf(num, den);
    assert forall i | 0 <= i < |r| :: r[i] == 1.0;
  }

  /** With a denominator from 1 to 960 every slot is at least one tick, so the rhythm fills the chord. */
  lemma {:induction false} SlotsPositive(num: int, den: int)
    requires 0 < den <= 960
    ensures forall i | 0 <= i < |SlotTicks(num, den).value| :: SlotTicks(num, den).value[i] > 0
  {
    var beatTick := (4 * TicksPerBeat) as real / den as real;
    assert beatTick * den as real == 1920.0;
    assert beatTick >= 2.0;
    var r := RhythmOf(num, den);
    forall i | 0 <= i < |r| ensures r[i] * beatTick >= 1.0 {
      assert r[i] >= 0.5;
    }
  }

  /** The strategy name is matched in any letter case. */
  lemma {:induction false} FactoryCaseInsensitive(name: string, num: int, den: int)
    ensures GetChordPattern(name, num, den) == GetChordPattern(LowerStr(name), num, den)
  {
    LowerIdempotent(name);
  }
}
