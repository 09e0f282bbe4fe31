/** The MIDI writer: a growing list of timed messages and a tick counter, and
    what a list of calls writes. */
module MidiTrack {
  import opened Prelude
  import opened AbcAst
  import opened VoiceRender
  import opened GraceGrid

  datatype Msg =
    | NoteOn(channel: nat, pitch: int, velocity: nat)
    | NoteOff(channel: nat, pitch: int)
    | ProgramChange(channel: nat, program: nat)
    | SetTempo(microsPerQuarter: nat)

  datatype Event = Event(tick: nat, msg: Msg)

  /** What the writer has: the events so far and the current tick. */
  datatype Track = Track(events: seq<Event>, tick: nat)

  function ExecOp(ch: nat, vel: nat, t: Track, op: Op): Track {
    match op
    case On(p) => t.(events := t.events + [Event(t.tick, NoteOn(ch, p, vel))])
    case Off(p) => t.(events := t.events + [Event(t.tick, NoteOff(ch, p))])
    case Wait(n) => t.(tick := t.tick + n)
  }

  function Exec(ch: nat, vel: nat, t: Track, ops: seq<Op>): Track
    decreases |ops|
  {
    if ops == [] then t else Exec(ch, vel, ExecOp(ch, vel, t, ops[0]), ops[1..])
  }

  lemma {:induction false} ExecConcat(ch: nat, vel: nat, t: Track, xs: seq<Op>, ys: seq<Op>)
    ensures Exec(ch, vel, t, xs + ys) == Exec(ch, vel, Exec(ch, vel, t, xs), ys)
    decreases |xs|
  {
    if xs == [] {
      assert xs + ys == ys;
    } else {
      assert (xs + ys)[1..] == xs[1..] + ys;
      ExecConcat(ch, vel, ExecOp(ch, vel, t, xs[0]), xs[1..], ys);
    }
  }

  lemma {:induction false} ExecOne(ch: nat, vel: nat, t: Track, op: Op)
    ensures Exec(ch, vel, t, [op]) == ExecOp(ch, vel, t, op)
  {
    assert [op][1..] == [];
  }

  // ---------------------------------------------------------- retargeting

  /** The events a list of calls appends, started at a tick. */
  function Played(ch: nat, vel: nat, tick: nat, ops: seq<Op>): seq<Event>
    decreases |ops|
  {
    if ops == [] then []
    else match ops[0]
      case On(p) => [Event(tick, NoteOn(ch, p, vel))] + Played(ch, vel, tick, ops[1..])
      case Off(p) => [Event(tick, NoteOff(ch, p))] + Played(ch, vel, tick, ops[1..])
      case Wait(n) => Played(ch, vel, tick + n, ops[1..])
  }

  lemma {:induction false} ExecAppends(ch: nat, vel: nat, t: Track, ops: seq<Op>)
    ensures Exec(ch, vel, t, ops) == Track(t.events + Played(ch, vel, t.tick, ops), t.tick + Dur(ops))
    decreases |ops|
  {
    if ops != [] {
      var t1 := ExecOp(ch, vel, t, ops[0]);
      ExecAppends(ch, vel, t1, ops[1..]);
      var rest := Played(ch, vel, t1.tick, ops[1..]);
      match ops[0]
      case On(p) => assert (t.events + [Event(t.tick, NoteOn(ch, p, vel))]) + rest
          == t.events + ([Event(t.tick, NoteOn(ch, p, vel))] + rest);
      case Off(p) => assert (t.events + [Event(t.tick, NoteOff(ch, p))]) + rest
          == t.events + ([Event(t.tick, NoteOff(ch, p))] + rest);
      case Wait(n) =>
    } else {
      assert t.events + [] == t.events;
    }
  }

  /** How many of the calls are heard as events. */
  function Heard(ops: seq<Op>): nat {
    if ops == [] then 0 else (if ops[0].Wait? then 0 else 1) + Heard(ops[1..])
  }

  /** Each note call is an event of its own, in its place among them, at the tick
      the waits before it add up to, on the channel and, for a note-on, with the
      velocity asked for; nothing else is written. */
  lemma {:induction false} CallsBecomeEvents(ch: nat, vel: nat, tick: nat, before: seq<Op>, op: Op, after: seq<Op>)
    ensures var es := Played(ch, vel, tick, before + [op] + after);
            && |es| == Heard(before + [op] + after)
            && (!op.Wait? ==>
                  && Heard(before) < |es|
                  && es[Heard(before)] == Event(tick + Dur(before),
                                                if op.On? then NoteOn(ch, op.pitch, vel) else NoteOff(ch, op.pitch)))
    decreases |before|
  {
    var ops := before + [op] + after;
    PlayedCount(ch, vel, tick, ops);
    if before == [] {
      assert ops[0] == op;
    } else {
      assert ops[0] == before[0] && ops[1..] == before[1..] + [op] + after;
      CallsBecomeEvents(ch, vel, if before[0].Wait? then tick + before[0].ticks else tick, before[1..], op, after);
    }
  }

  lemma {:induction false} PlayedCount(ch: nat, vel: nat, tick: nat, ops: seq<Op>)
    ensures |Played(ch, vel, tick, ops)| == Heard(ops)
    decreases |ops|
  {
    if ops != [] {
      PlayedCount(ch, vel, if ops[0].Wait? then tick + ops[0].ticks else tick, ops[1..]);
    }
  }

  /** The same messages on another channel, d ticks later. */
  function Retarget(es: seq<Event>, d: nat, ch: nat): seq<Event> {
    if es == [] then []
    else
      var m := match es[0].msg
        case NoteOn(_, p, v) => NoteOn(ch, p, v)
        case NoteOff(_, p) => NoteOff(ch, p)
        case other => other;
      [Event(es[0].tick + d, m)] + Retarget(es[1..], d, ch)
  }

  /** Playing on channel c' from tick t + d is playing on c from t, retargeted. */
  lemma {:induction false} PlayedElsewhere(c: nat, c': nat, vel: nat, t: nat, d: nat, ops: seq<Op>)
    ensures Played(c', vel, t + d, ops) == Retarget(Played(c, vel, t, ops), d, c')
    decreases |ops|
  {
    if ops != [] {
      if ops[0].Wait? {
        PlayedElsewhere(c, c', vel, t + ops[0].ticks, d, ops[1..]);
      } else {
        PlayedElsewhere(c, c', vel, t, d, ops[1..]);
        assert Played(c, vel, t, ops)[1..] == Played(c, vel, t, ops[1..]);
      }
    }
  }

  lemma {:induction false} PlayedConcat(ch: nat, vel: nat, tick: nat, xs: seq<Op>, ys: seq<Op>)
    ensures Played(ch, vel, tick, xs + ys) == Played(ch, vel, tick, xs) + Played(ch, vel, tick + Dur(xs), ys)
    decreases |xs|
  {
    if xs == [] {
      assert xs + ys == ys;
    } else {
      assert (xs + ys)[1..] == xs[1..] + ys;
      PlayedConcat(ch, vel, if xs[0].Wait? then tick + xs[0].ticks else tick, xs[1..], ys);
    }
  }

  /** Ticks never run backwards. */
  predicate Ordered(es: seq<Event>) {
    forall i, j :: 0 <= i < j < |es| ==> es[i].tick <= es[j].tick
  }

  predicate Within(es: seq<Event>, lo: nat, hi: nat) {
    forall i :: 0 <= i < |es| ==> lo <= es[i].tick <= hi
  }

  lemma {:induction false} PlayedInOrder(ch: nat, vel: nat, tick: nat, ops: seq<Op>)
    ensures Ordered(Played(ch, vel, tick, ops)) && Within(Played(ch, vel, tick, ops), tick, tick + Dur(ops))
    decreases |ops|
  {
    if ops != [] {
      if ops[0].Wait? {
        PlayedInOrder(ch, vel, tick + ops[0].ticks, ops[1..]);
      } else {
        PlayedInOrder(ch, vel, tick, ops[1..]);
        var rest, all := Played(ch, vel, tick, ops[1..]), Played(ch, vel, tick, ops);
        assert forall i :: 0 < i < |all| ==> all[i] == rest[i - 1];
      }
    }
  }

  // ----------------------------------------------------------- the writer

  // ------------------------------------------------- the 32-bit counter

  /** The same events with the tick counter in 32 bits, as a release build has
      it; a debug build stops where it wraps. */
  function PlayedIn32(ch: nat, vel: nat, tick: nat, ops: seq<Op>): seq<Event>
    decreases |ops|
  {
    if ops == [] then []
    else match ops[0]
      case On(p) => [Event(tick, NoteOn(ch, p, vel))] + PlayedIn32(ch, vel, tick, ops[1..])
      case Off(p) => [Event(tick, NoteOff(ch, p))] + PlayedIn32(ch, vel, tick, ops[1..])
      case Wait(n) => PlayedIn32(ch, vel, W32(tick + n), ops[1..])
  }

  predicate TicksFit(es: seq<Event>) {
    forall i :: 0 <= i < |es| ==> es[i].tick < 0x1_0000_0000
  }

  lemma {:induction false} CounterWraps(ch: nat, vel: nat, tick: nat, ops: seq<Op>, i: nat)
    ensures |PlayedIn32(ch, vel, W32(tick), ops)| == |Played(ch, vel, tick, ops)|
    ensures i < |Played(ch, vel, tick, ops)| ==>
              var e, e' := Played(ch, vel, tick, ops)[i], PlayedIn32(ch, vel, W32(tick), ops)[i];
              e'.msg == e.msg && e'.tick == W32(e.tick)
    decreases |ops|
  {
    if ops != [] {
      if ops[0].Wait? {
        assert W32(W32(tick) + ops[0].ticks) == W32(tick + ops[0].ticks);
        CounterWraps(ch, vel, tick + ops[0].ticks, ops[1..], i);
      } else {
        CounterWraps(ch, vel, tick, ops[1..], if i == 0 then 0 else i - 1);
      }
    }
  }

  /** The counter makes no difference exactly when every event's tick fits. */
  lemma {:induction false} CounterIsExact(ch: nat, vel: nat, ops: seq<Op>)
    ensures PlayedIn32(ch, vel, 0, ops) == Played(ch, vel, 0, ops) <==> TicksFit(Played(ch, vel, 0, ops))
  {
    var es, es' := Played(ch, vel, 0, ops), PlayedIn32(ch, vel, 0, ops);
    CounterWraps(ch, vel, 0, ops, 0);
    forall i | 0 <= i < |es|
      ensures es'[i].msg == es[i].msg && es'[i].tick == W32(es[i].tick)
    {
      CounterWraps(ch, vel, 0, ops, i);
    }
    if es' == es {
      forall i | 0 <= i < |es|
        ensures es[i].tick < 0x1_0000_0000
      {
        assert es'[i].tick == es[i].tick;
      }
    }
  }

  /** Otherwise events can come out of order: the last tick wraps to 0. */
  lemma {:induction false} LongTrackGoesBack(ch: nat, vel: nat, p: int)
    ensures !Ordered(PlayedIn32(ch, vel, 0, [On(p), Wait(0xFFFF_FFFF), Off(p), Wait(1), On(p)]))
  {
    var o4, on := [On(p)], NoteOn(ch, p, vel);
    var o3 := [Wait(1), On(p)];
    var o2 := [Off(p), Wait(1), On(p)];
    var o1 := [Wait(0xFFFF_FFFF), Off(p), Wait(1), On(p)];
    var ops := [On(p), Wait(0xFFFF_FFFF), Off(p), Wait(1), On(p)];
    assert o4[1..] == [] && o3[1..] == o4 && o2[1..] == o3 && o1[1..] == o2 && ops[1..] == o1;
    assert PlayedIn32(ch, vel, 0, []) == [];
    assert PlayedIn32(ch, vel, 0, o4) == [Event(0, on)];
    assert W32(0xFFFF_FFFF + 1) == 0 && W32(0 + 0xFFFF_FFFF) == 0xFFFF_FFFF;
    assert PlayedIn32(ch, vel, 0xFFFF_FFFF, o3) == [Event(0, on)];
    assert PlayedIn32(ch, vel, 0xFFFF_FFFF, o2) == [Event(0xFFFF_FFFF, NoteOff(ch, p)), Event(0, on)];
    assert PlayedIn32(ch, vel, 0, o1) == PlayedIn32(ch, vel, 0xFFFF_FFFF, o2);
    var es := PlayedIn32(ch, vel, 0, ops);
    assert es == [Event(0, on), Event(0xFFFF_FFFF, NoteOff(ch, p)), Event(0, on)];
    assert es[1].tick == 0xFFFF_FFFF && es[2].tick == 0;
  }

  /** The writer has made the calls `ops` on a channel since it was at `t`. */
  ghost predicate Wrote(w: MidiWriter, ch: nat, vel: nat, t: Track, ops: seq<Op>)
    reads w
  {
    w.Get() == Exec(ch, vel, t, ops)
  }

  class MidiWriter {
    const channel: nat
    var events: seq<Event>
    var currentTick: nat

    ghost function Get(): Track
      reads this
    {
      Track(events, currentTick)
    }

    constructor (ch: nat)
      ensures Get() == Track([], 0) && channel == ch % 16
    {
      channel, events, currentTick := ch % 16, [], 0;
    }

    method Push(msg: Msg)
      modifies this
      ensures Get() == old(Get()).(events := old(events) + [Event(old(currentTick), msg)])
    {
      events := events + [Event(currentTick, msg)];
    }

    method Advance(ticks: nat)
      modifies this
      ensures Get() == old(Get()).(tick := old(currentTick) + ticks)
    {
      currentTick := currentTick + ticks;
    }

    /** The tempo event of a `Q:` beat of num/den at bpm. */
    method Tempo(t: AbcAst.Tempo)
      modifies this
      ensures Get() == old(Get()).(events := old(events) + [Event(old(currentTick), SetTempo(MicrosPerQuarter(t)))])
    {
      Push(SetTempo(MicrosPerQuarter(t)));
    }

    // On the writer's own channel.

    method StartNote(p: int, velocity: nat)
      modifies this
      ensures Wrote(this, channel, velocity, old(Get()), [On(p)])
    {
      ExecOne(channel, velocity, Get(), On(p));
      Push(NoteOn(channel, p, velocity));
    }

    method StopNote(p: int, ghost velocity: nat)
      modifies this
      ensures Wrote(this, channel, velocity, old(Get()), [Off(p)])
    {
      ExecOne(channel, velocity, Get(), Off(p));
      Push(NoteOff(channel, p));
    }

    method WholeNote(p: int, velocity: nat, ticks: nat)
      modifies this
      ensures Wrote(this, channel, velocity, old(Get()), [On(p), Wait(ticks), Off(p)])
    {
      ghost var t := Get();
      StartNote(p, velocity);
      Advance(ticks);
      StopNote(p, velocity);
      ExecNote(channel, velocity, t, p, ticks);
    }

    // On a channel of the caller's choice.

    method StartNoteOn(p: int, velocity: nat, ch: nat)
      modifies this
      ensures Wrote(this, ch % 16, velocity, old(Get()), [On(p)])
    {
      ExecOne(ch % 16, velocity, Get(), On(p));
      Push(NoteOn(ch % 16, p, velocity));
    }

    method StopNoteOn(p: int, ch: nat, ghost velocity: nat)
      modifies this
      ensures Wrote(this, ch % 16, velocity, old(Get()), [Off(p)])
    {
      ExecOne(ch % 16, velocity, Get(), Off(p));
      Push(NoteOff(ch % 16, p));
    }

    method WholeNoteOn(p: int, velocity: nat, ticks: nat, ch: nat)
      modifies this
      ensures Wrote(this, ch % 16, velocity, old(Get()), [On(p), Wait(ticks), Off(p)])
    {
      ghost var t := Get();
      StartNoteOn(p, velocity, ch);
      Advance(ticks);
      StopNoteOn(p, ch, velocity);
      ExecNote(ch % 16, velocity, t, p, ticks);
    }
  }

  lemma {:induction false} ExecNote(ch: nat, vel: nat, t: Track, p: int, ticks: nat)
    ensures Exec(ch, vel, t, [On(p), Wait(ticks), Off(p)])
            == Exec(ch, vel, ExecOp(ch, vel, Exec(ch, vel, t, [On(p)]), Wait(ticks)), [Off(p)])
  {
    ExecConcat(ch, vel, t, [On(p)], [Wait(ticks), Off(p)]);
    assert [On(p)] + [Wait(ticks), Off(p)] == [On(p), Wait(ticks), Off(p)];
    assert [Wait(ticks), Off(p)][1..] == [Off(p)];
  }

  function PerQuarter(micros: nat, denom: nat): nat {
    if denom == 0 then 500000 else micros / denom
  }

  function MicrosPerQuarter(t: AbcAst.Tempo): nat {
    PerQuarter(60000000 * t.den, t.bpm * t.num * 4)
  }

  /** The tempo event says how long a quarter lasts: bpm beats of num/den take
      a minute, that is bpm * num * 4 / den quarters do, to the microsecond. */
  lemma {:induction false} TempoMeaning(t: AbcAst.Tempo)
    ensures var quarters, us := t.bpm * t.num * 4, MicrosPerQuarter(t);
            if quarters == 0 then us == 500000
            else us * quarters <= 60000000 * t.den < (us + 1) * quarters
  {
    var quarters := t.bpm * t.num * 4;
    if quarters != 0 {
      Divided(60000000 * t.den, quarters);
    }
  }

  lemma {:induction false} Divided(a: nat, b: nat)
    requires b > 0
    ensures a / b * b <= a < (a / b + 1) * b
  {
    assert a == a / b * b + a % b;
    assert (a / b + 1) * b == a / b * b + b;
  }

  /** A run of graces just before a principal of `main` ticks. Both voice loops use it. */
  method PlayGraceRun(w: MidiWriter, cfg: Config, graces: seq<Note>, main: nat, unit: nat, bar: Accidentals,
                      velocity: nat, ch: nat)
    returns (stolen: nat)
    modifies w
    ensures Wrote(w, ch % 16, velocity, old(w.Get()), if graces == [] then []
            else GraceOps(cfg, graces, GraceEach(|graces|, main, unit), bar))
    ensures stolen == Stolen(|graces|, main, unit)
  {
    var count := |graces|;
    if count == 0 {
      return 0;
    }
    ghost var t := w.Get();
    var each := GraceEach(count, main, unit);
    ghost var all := GraceOps(cfg, graces, each, bar);
    for i := 0 to count
      invariant Exec(ch % 16, velocity, w.Get(), GraceOps(cfg, graces[i..], each, bar))
                == Exec(ch % 16, velocity, t, all)
    {
      ghost var now := w.Get();
      var p := PitchOf(cfg, graces[i], bar, None);
      w.WholeNoteOn(p, velocity, each, ch);
      assert graces[i..][1..] == graces[i + 1..];
      ExecConcat(ch % 16, velocity, now, [On(p), Wait(each), Off(p)], GraceOps(cfg, graces[i + 1..], each, bar));
    }
    stolen := each * count;
  }

  /** Some element, as a hash map's iteration would give one. */
  method AnyOf(keys: set<int>) returns (p: int)
    requires keys != {}
    ensures p in keys
  {
    assert exists x :: x in keys by {
      if forall x :: x !in keys {
        assert false;
      }
    }
    p :| p in keys;
  }

  lemma {:induction false} FlushSnoc(order: seq<int>, p: int)
    ensures Flush(order + [p]) == Flush(order) + [Off(p)]
  {
    if order == [] {
      assert [p][1..] == [] && order + [p] == [p];
    } else {
      assert (order + [p])[1..] == order[1..] + [p];
      FlushSnoc(order[1..], p);
    }
  }
}
