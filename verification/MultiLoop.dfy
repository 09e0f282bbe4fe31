/** One voice played by the multi-track compiler, on a channel of its own. */
module MultiLoop {
  import opened Prelude
  import opened AbcAst
  import opened VoiceRender
  import opened MidiTrack

  class OwnVoice {
    const cfg: Config
    const writer: MidiWriter
    const velocity: nat
    const channel: nat
    var bar: Accidentals
    var held: map<int, nat>
    var carry: map<(NoteName, int), Accidental>
    var key: Accidentals
    var unit: nat
    var meter: Option<Meter>
    var grace: seq<Note>

    ghost function Voice(): VoiceState
      reads this
    {
      VoiceState(bar, held, carry, key, unit, meter, grace)
    }

    /** The writer has made the calls `ops` of this voice since it was at `t`. */
    ghost predicate Sent(t: Track, ops: seq<Op>)
      reads writer
    {
      Wrote(writer, channel % 16, velocity, t, ops)
    }

    constructor (cfg: Config, writer: MidiWriter, velocity: nat, channel: nat, key: Accidentals, unit: nat,
                 meter: Option<Meter>)
      ensures this.cfg == cfg && this.writer == writer && this.velocity == velocity && this.channel == channel
      ensures Voice() == Fresh(key, unit, meter)
    {
      this.cfg, this.writer, this.velocity, this.channel := cfg, writer, velocity, channel;
      bar, held, carry, this.key := key, map[], map[], key;
      this.unit, this.meter, grace := unit, meter, [];
    }

    ghost method Then(t: Track, xs: seq<Op>, ys: seq<Op>)
      ensures Exec(channel % 16, velocity, t, xs + ys)
              == Exec(channel % 16, velocity, Exec(channel % 16, velocity, t, xs), ys)
    {
      ExecConcat(channel % 16, velocity, t, xs, ys);
    }

    /** The principal note: continue or end a tie, start one, or just sound. */
    method Principal(p: int, ticks: nat, tie: bool)
      modifies this`held, writer
      ensures held == HeldAfter(old(held), p, ticks, tie)
      ensures Sent(old(writer.Get()), PrincipalOps(old(held), p, ticks, tie))
    {
      ghost var t := writer.Get();
      if p in held {
        var heldTicks := held[p];
        held := held - {p};
        ExecOne(channel % 16, velocity, t, Wait(ticks));
        writer.Advance(ticks);
        if tie {
          held := held[p := heldTicks + ticks];
        } else {
          Then(t, [Wait(ticks)], [Off(p)]);
          assert [Wait(ticks)] + [Off(p)] == [Wait(ticks), Off(p)];
          writer.StopNoteOn(p, channel, velocity);
        }
      } else if tie {
        Then(t, [On(p)], [Wait(ticks)]);
        assert [On(p)] + [Wait(ticks)] == [On(p), Wait(ticks)];
        writer.StartNoteOn(p, velocity, channel);
        ExecOne(channel % 16, velocity, writer.Get(), Wait(ticks));
        writer.Advance(ticks);
        held := held[p := ticks];
      } else {
        writer.WholeNoteOn(p, velocity, ticks, channel);
      }
    }

    method PlayNote(n: Note)
      modifies this, writer
      ensures Voice() == PerformNote(cfg, old(Voice()), n).0
      ensures Sent(old(writer.Get()), PerformNote(cfg, old(Voice()), n).1)
    {
      ghost var t := writer.Get();
      var at := (n.pitch, n.octave);
      var carried := if at in carry then Some(carry[at]) else None;
      carry := carry - {at};
      var eff := Effective(n.pitch, n.accidental, bar, carried);
      var p := PitchOf(cfg, n, bar, carried);
      var ticks := ToTicks(n.duration, unit);
      ghost var main := ticks;
      if grace != [] {
        var stolen := PlayGraceRun(writer, cfg, grace, ticks, unit, bar, velocity, channel);
        ticks := SatSub(ticks, stolen);
        grace := [];
      }
      ghost var run := GraceRun(cfg, old(Voice()), main);
      assert Sent(t, run);
      Principal(p, ticks, n.tie);
      Then(t, run, PrincipalOps(old(held), p, ticks, n.tie));
      if n.tie && eff.Some? {
        carry := carry[at := eff.value];
      }
      if n.accidental.Some? {
        bar := bar[n.pitch := n.accidental.value];
      }
    }

    /** A chord's ons, its time, and its offs resolved afresh. */
    method SoundChord(notes: seq<Note>, ticks: nat)
      modifies this`bar, writer
      ensures bar == BarAfter(old(bar), notes)
      ensures Sent(old(writer.Get()), ChordOps(cfg, old(bar), notes, ticks))
    {
      ghost var t, bar0 := writer.Get(), bar;
      StartChord(notes);
      ghost var on := ChordOn(cfg, bar0, notes);
      Then(t, on, [Wait(ticks)]);
      ExecOne(channel % 16, velocity, writer.Get(), Wait(ticks));
      writer.Advance(ticks);
      StopChord(notes);
      Then(t, on + [Wait(ticks)], ChordOff(cfg, bar, notes));
    }

    method StartChord(notes: seq<Note>)
      modifies this`bar, writer
      ensures bar == BarAfter(old(bar), notes)
      ensures Sent(old(writer.Get()), ChordOn(cfg, old(bar), notes))
    {
      ghost var t, bar0 := writer.Get(), bar;
      for i := 0 to |notes|
        invariant Exec(channel % 16, velocity, writer.Get(), ChordOn(cfg, bar, notes[i..]))
                  == Exec(channel % 16, velocity, t, ChordOn(cfg, bar0, notes))
        invariant BarAfter(bar, notes[i..]) == BarAfter(bar0, notes)
      {
        ghost var now := writer.Get();
        var p := PitchOf(cfg, notes[i], bar, None);
        writer.StartNoteOn(p, velocity, channel);
        assert notes[i..][1..] == notes[i + 1..];
        Then(now, [On(p)], ChordOn(cfg, Marked(bar, notes[i]), notes[i + 1..]));
        if notes[i].accidental.Some? {
          bar := bar[notes[i].pitch := notes[i].accidental.value];
        }
      }
      assert notes[|notes|..] == [];
    }

    method StopChord(notes: seq<Note>)
      modifies writer
      ensures Sent(old(writer.Get()), ChordOff(cfg, bar, notes))
    {
      ghost var t := writer.Get();
      for i := 0 to |notes|
        invariant Exec(channel % 16, velocity, writer.Get(), ChordOff(cfg, bar, notes[i..]))
                  == Exec(channel % 16, velocity, t, ChordOff(cfg, bar, notes))
      {
        ghost var now := writer.Get();
        var p := PitchOf(cfg, notes[i], bar, None);
        writer.StopNoteOn(p, channel, velocity);
        assert notes[i..][1..] == notes[i + 1..];
        Then(now, [Off(p)], ChordOff(cfg, bar, notes[i + 1..]));
      }
      assert notes[|notes|..] == [];
    }

    method PlayChord(notes: seq<Note>, d: Ratio)
      modifies this`bar, this`grace, writer
      ensures Voice() == PerformChord(cfg, old(Voice()), notes, d).0
      ensures Sent(old(writer.Get()), PerformChord(cfg, old(Voice()), notes, d).1)
    {
      ghost var t, bar0 := writer.Get(), bar;
      var ticks := ToTicks(d, unit);
      ghost var main := ticks;
      if grace != [] {
        var stolen := PlayGraceRun(writer, cfg, grace, ticks, unit, bar, velocity, channel);
        ticks := SatSub(ticks, stolen);
        grace := [];
      }
      ghost var run := GraceRun(cfg, old(Voice()), main);
      assert Sent(t, run);
      SoundChord(notes, ticks);
      Then(t, run, ChordOps(cfg, bar0, notes, ticks));
    }

    method PlayInner(e: Element, p: nat, q: nat)
      modifies this`bar, writer
      ensures bar == PerformInner(cfg, old(bar), unit, p, q, e).0
      ensures Sent(old(writer.Get()), PerformInner(cfg, old(bar), unit, p, q, e).1)
    {
      match e
      case ANote(n) =>
        var ticks := TupletTicks(n.duration, unit, p, q);
        var pitch := PitchOf(cfg, n, bar, None);
        writer.WholeNoteOn(pitch, velocity, ticks, channel);
        if n.accidental.Some? {
          bar := bar[n.pitch := n.accidental.value];
        }
      case ARest(d, _) =>
        var ticks := TupletTicks(d, unit, p, q);
        ExecOne(channel % 16, velocity, writer.Get(), Wait(ticks));
        writer.Advance(ticks);
      case AChord(ns, d) =>
        SoundChord(ns, TupletTicks(d, unit, p, q));
      case _ =>
    }

    method PlayTuplet(p: nat, q: nat, es: seq<Element>)
      modifies this`bar, writer
      ensures bar == PerformTuplet(cfg, old(bar), unit, p, q, es).0
      ensures Sent(old(writer.Get()), PerformTuplet(cfg, old(bar), unit, p, q, es).1)
    {
      ghost var t, bar0 := writer.Get(), bar;
      for i := 0 to |es|
        invariant PerformTuplet(cfg, bar, unit, p, q, es[i..]).0 == PerformTuplet(cfg, bar0, unit, p, q, es).0
        invariant Exec(channel % 16, velocity, writer.Get(), PerformTuplet(cfg, bar, unit, p, q, es[i..]).1)
                  == Exec(channel % 16, velocity, t, PerformTuplet(cfg, bar0, unit, p, q, es).1)
      {
        ghost var now, was := writer.Get(), bar;
        assert es[i..][0] == es[i] && es[i..][1..] == es[i + 1..];
        PlayInner(es[i], p, q);
        Then(now, PerformInner(cfg, was, unit, p, q, es[i]).1, PerformTuplet(cfg, bar, unit, p, q, es[i + 1..]).1);
      }
      assert es[|es|..] == [];
    }

    method PlayElement(e: Element)
      modifies this, writer
      ensures Voice() == Perform(cfg, old(Voice()), e).0
      ensures Sent(old(writer.Get()), Perform(cfg, old(Voice()), e).1)
    {
      match e
      case ANote(n) => PlayNote(n);
      case AChord(ns, d) => PlayChord(ns, d);
      case ARest(d, bars) =>
        var ticks;
        if bars.Some? {
          ticks := W32(BarTicks(meter, cfg.ticksPerBeat) * bars.value);
        } else {
          ticks := ToTicks(d, unit);
        }
        ExecOne(channel % 16, velocity, writer.Get(), Wait(ticks));
        writer.Advance(ticks);
      case ABar(_) => bar := key;
      case AField(kind, value) =>
        if kind == 'K' {
          key := cfg.keyOf(value);
          bar := key;
        } else if kind == 'L' {
          var u := cfg.unitOf(value);
          if u.Some? {
            unit := UnitTicks(u.value, cfg.ticksPerBeat);
          }
        } else if kind == 'M' {
          meter := Some(cfg.meterOf(value));
        }
      case Graces(_, ns) => grace := ns;
      case ATuplet(p, q, es) => PlayTuplet(p, q, es);
      case _ =>
    }

    /** The voice loop and the final flush of tied notes, in hash-map order. */
    method PlayVoice(es: seq<Element>) returns (ghost order: seq<int>)
      modifies this, writer
      ensures Lists(order, PerformAll(cfg, old(Voice()), es).0.held)
      ensures Sent(old(writer.Get()), PerformAll(cfg, old(Voice()), es).1 + Flush(order))
    {
      ghost var t := writer.Get();
      ghost var all := PerformAll(cfg, Voice(), es);
      for i := 0 to |es|
        invariant PerformAll(cfg, Voice(), es[i..]).0 == all.0
        invariant Exec(channel % 16, velocity, writer.Get(), PerformAll(cfg, Voice(), es[i..]).1)
                  == Exec(channel % 16, velocity, t, all.1)
      {
        ghost var now, was := writer.Get(), Voice();
        assert es[i..][0] == es[i] && es[i..][1..] == es[i + 1..];
        PlayElement(es[i]);
        Then(now, Perform(cfg, was, es[i]).1, PerformAll(cfg, Voice(), es[i + 1..]).1);
      }
      assert es[|es|..] == [];
      assert held == all.0.held;
      order := FlushHeld();
      Then(t, all.1, Flush(order));
    }

    method FlushHeld() returns (ghost order: seq<int>)
      modifies this`held, writer
      ensures Lists(order, old(held))
      ensures Sent(old(writer.Get()), Flush(order))
    {
      ghost var t, held0 := writer.Get(), held;
      order := [];
      while held.Keys != {}
        invariant Sent(t, Flush(order))
        invariant forall i :: 0 <= i < |order| ==> order[i] in held0 && order[i] !in held
        invariant forall p :: p in held0 ==> p in order || p in held
        invariant forall p :: p in held ==> p in held0
        invariant forall i, j :: 0 <= i < j < |order| ==> order[i] != order[j]
        decreases held.Keys
      {
        var p := AnyOf(held.Keys);
        writer.StopNoteOn(p, channel, velocity);
        Then(t, Flush(order), [Off(p)]);
        FlushSnoc(order, p);
        held := held - {p};
        order := order + [p];
      }
    }
  }
}
