/**
 * MIDI channel messages as the serializer receives them: each carries the
 * ticks elapsed since the previous message of its track. Meta messages and
 * the program change all carry a delta of 0 and are not part of the model.
 */
module Events {

  datatype Kind = On | Off

  datatype Event = Event(kind: Kind, channel: int, note: int, velocity: int, delta: int)

  /** A note number or velocity the message constructor accepts. */
  predicate DataByte(x: int) {
    0 <= x <= 127
  }

  /** A message the constructor accepts: its note and its velocity are data bytes. */
  predicate Sendable(e: Event) {
    DataByte(e.note) && DataByte(e.velocity)
  }

  /**
   * How many messages of a list are constructed before the first one the
   * constructor refuses: all of them when it refuses none.
   */
  function Accepted(evs: seq<Event>): (n: nat)
    ensures n <= |evs|
    ensures forall k | 0 <= k < n :: Sendable(evs[k])
    ensures n < |evs| ==> !Sendable(evs[n])
  {
    if evs == [] || !Sendable(evs[0]) then 0 else 1 + Accepted(evs[1..])
  }

  /** The first refusal in a concatenation is the first part's, or else the second part's. */
  lemma AcceptedAppend(a: seq<Event>, b: seq<Event>)
    ensures Accepted(a) < |a| ==> Accepted(a + b) == Accepted(a) && (a + b)[..Accepted(a + b)] == a[..Accepted(a)]
    ensures Accepted(a) == |a| ==>
              Accepted(a + b) == |a| + Accepted(b) && (a + b)[..Accepted(a + b)] == a + b[..Accepted(b)]
  {
    var n := if Accepted(a) < |a| then Accepted(a) else |a| + Accepted(b);
    var ab := a + b;
    forall k | 0 <= k < n ensures Sendable(ab[k]) {
      if k >= |a| { assert ab[k] == b[k - |a|]; }
    }
    if n < |ab| {
      if Accepted(a) < |a| { assert ab[n] == a[n]; } else { assert ab[n] == b[n - |a|]; }
    }
    AcceptedUnique(ab, n);
    if Accepted(a) < |a| {
      assert ab[..n] == a[..n];
    } else {
      assert ab[..n] == a + b[..Accepted(b)];
    }
  }

  /** `Accepted` is the only count with its three properties. */
  lemma AcceptedUnique(evs: seq<Event>, n: nat)
    requires n <= |evs| && forall k | 0 <= k < n :: Sendable(evs[k])
    requires n < |evs| ==> !Sendable(evs[n])
    ensures Accepted(evs) == n
  {
  }

  /** The next message of a list sent one at a time: appended, or the first refusal. */
  lemma SendNext(evs: seq<Event>, k: nat)
    requires k < |evs| && k <= Accepted(evs)
    ensures Sendable(evs[k]) ==> k + 1 <= Accepted(evs) && evs[..k + 1] == evs[..k] + [evs[k]]
    ensures !Sendable(evs[k]) ==> Accepted(evs) == k
  {
    assert evs[..k + 1] == evs[..k] + [evs[k]];
  }

  /** Total ticks covered by a track: the sum of its deltas. */
  function SumDeltas(evs: seq<Event>): int {
    if evs == [] then 0 else SumDeltas(evs[..|evs| - 1]) + evs[|evs| - 1].delta
  }

  lemma {:induction false} SumDeltasAppend(a: seq<Event>, b: seq<Event>)
    ensures SumDeltas(a + b) == SumDeltas(a) + SumDeltas(b)
    decreases |b|
  {
    if b == [] {
      assert a + b == a;
    } else {
      assert (a + b)[..|a + b| - 1] == a + b[..|b| - 1];
      SumDeltasAppend(a, b[..|b| - 1]);
    }
  }

  /** Two messages appended span their two deltas. */
  lemma {:induction false} SumDeltasPair(a: seq<Event>, x: Event, y: Event)
    ensures SumDeltas(a + [x, y]) == SumDeltas(a) + x.delta + y.delta
  {
    SumDeltasAppend(a, [x, y]);
    assert [x, y][..1] == [x];
    assert [x][..0] == [];
    assert SumDeltas([x]) == x.delta;
    assert SumDeltas([x, y]) == SumDeltas([x]) + y.delta;
  }

  /**
   * One message per pitch, in order, all of one kind, the first carrying
   * `dt` and the others 0: how the program starts or stops a chord.
   */
  function Group(kind: Kind, channel: int, notes: seq<int>, velocity: int, dt: int): (g: seq<Event>)
    ensures |g| == |notes|
  {
    if notes == [] then []
    else Group(kind, channel, notes[..|notes| - 1], velocity, dt)
         + [Event(kind, channel, notes[|notes| - 1], velocity, if |notes| == 1 then dt else 0)]
  }

  /** Closed form of `Group`, message by message. */
  lemma {:induction false} GroupAt(kind: Kind, channel: int, notes: seq<int>, velocity: int, dt: int, k: nat)
    requires k < |notes|
    ensures Group(kind, channel, notes, velocity, dt)[k]
            == Event(kind, channel, notes[k], velocity, if k == 0 then dt else 0)
    decreases |notes|
  {
    if k < |notes| - 1 {
      GroupAt(kind, channel, notes[..|notes| - 1], velocity, dt, k);
    }
  }

  /** A group spans `dt` ticks, or none when it is empty. */
  lemma {:induction false} GroupSum(kind: Kind, channel: int, notes: seq<int>, velocity: int, dt: int)
    ensures SumDeltas(Group(kind, channel, notes, velocity, dt)) == if notes == [] then 0 else dt
    decreases |notes|
  {
    if notes != [] {
      var g := Group(kind, channel, notes, velocity, dt);
      assert g[..|g| - 1] == Group(kind, channel, notes[..|notes| - 1], velocity, dt);
      GroupSum(kind, channel, notes[..|notes| - 1], velocity, dt);
    }
  }

  /** The loop that appends one message per note, only the first carrying `dt`. */
  method EmitGroup(track: seq<Event>, kind: Kind, channel: int, notes: seq<int>, velocity: int, dt: int)
    returns (t: seq<Event>)
    ensures t == track + Group(kind, channel, notes, velocity, dt)
  {
    t := track;
    var first := true;
    var k := 0;
    while k < |notes|
      invariant 0 <= k <= |notes|
      invariant first == (k == 0)
      invariant t == track + Group(kind, channel, notes[..k], velocity, dt)
    {
      t := t + [Event(kind, channel, notes[k], velocity, if first then dt else 0)];
      first := false;
      assert notes[..k + 1][..k] == notes[..k];
      k := k + 1;
    }
    assert notes[..k] == notes;
  }

  /** A MIDI track that strategies append messages to. */
  class Track {
    var events: seq<Event>

    constructor ()
      ensures events == []
    {
      events := [];
    }

    method Append(e: Event)
      modifies this
      ensures events == old(events) + [e]
    {
      events := events + [e];
    }

    /**
     * `append(Message(...))`: the message is built first, so a note or
     * velocity outside 0..127 raises and nothing is appended.
     */
    method Send(e: Event) returns (ok: bool)
      modifies this
      ensures ok == Sendable(e)
      ensures events == old(events) + (if ok then [e] else [])
    {
      ok := Sendable(e);
      if ok {
        Append(e);
      }
    }
  }
}
