/** What one voice plays: the per-element rules of the ABC to MIDI compiler
    (bar-scoped accidentals, ties, grace notes, tuplets, inline fields), as the
    writer calls each element makes. */
module VoiceRender {
  import opened Prelude
  import opened AbcAst

  /** A call on the MIDI writer: start a pitch, stop a pitch, let time pass. */
  datatype Op = On(pitch: int) | Off(pitch: int) | Wait(ticks: nat)

  type Accidentals = map<NoteName, Accidental>

  /** What stays fixed for a voice. The parsers of inline `K:`, `L:` and `M:`
      fields are parameters. */
  datatype Config = Config(
    offset: int, ticksPerBeat: nat,
    keyOf: string -> Accidentals, unitOf: string -> Option<Ratio>, meterOf: string -> Meter)

  datatype VoiceState = VoiceState(
    bar: Accidentals,
    held: map<int, nat>,
    carry: map<(NoteName, int), Accidental>,
    key: Accidentals,
    unit: nat,
    meter: Option<Meter>,
    grace: seq<Note>)

  function Clamp7(x: int): (r: int)
    ensures 0 <= r <= 127
  {
    if x < 0 then 0 else if x > 127 then 127 else x
  }

  function MidiPitch(name: NoteName, octave: int, acc: Option<Accidental>): int {
    Clamp7(name.Semitone() + I8(I8(octave + 5) * 12) + AccOffset(acc))
  }

  function Effective(name: NoteName, own: Option<Accidental>, bar: Accidentals,
                     carried: Option<Accidental>): Option<Accidental> {
    if own.Some? then own else if name in bar then Some(bar[name]) else carried
  }

  /** The sounding pitch of a note under the accidentals in force. */
  function PitchOf(cfg: Config, n: Note, bar: Accidentals, carried: Option<Accidental>): int {
    Clamp7(MidiPitch(n.pitch, n.octave, Effective(n.pitch, n.accidental, bar, carried)) + cfg.offset)
  }

  function Marked(bar: Accidentals, n: Note): Accidentals {
    if n.accidental.Some? then bar[n.pitch := n.accidental.value] else bar
  }

  function UnitTicks(unit: Ratio, ticksPerBeat: nat): nat {
    W32(ticksPerBeat * 4 * unit.numerator) / Max(unit.denominator, 1)
  }

  function BarTicks(meter: Option<Meter>, ticksPerBeat: nat): nat {
    var (num, den) := if meter.Some? then meter.value.Fraction() else (4, 4);
    W32(ticksPerBeat * 4 * num) / Max(den, 1)
  }

  // ---------------------------------------------------------- grace runs

  /** Ticks given to each note of a run of `count` graces before a principal of `main` ticks. */
  function GraceEach(count: nat, main: nat, unit: nat): (each: nat)
    requires count > 0
    ensures each >= 1
  {
    Max(Min(Max(unit / 8, 1) * count, main / 2) / count, 1)
  }

  function Stolen(count: nat, main: nat, unit: nat): nat {
    if count == 0 then 0 else GraceEach(count, main, unit) * count
  }

  function GraceOps(cfg: Config, graces: seq<Note>, each: nat, bar: Accidentals): seq<Op> {
    if graces == [] then []
    else
      var p := PitchOf(cfg, graces[0], bar, None);
      [On(p), Wait(each), Off(p)] + GraceOps(cfg, graces[1..], each, bar)
  }

  /** The buffered graces as played before a principal of `main` ticks. */
  function GraceRun(cfg: Config, vs: VoiceState, main: nat): seq<Op> {
    if vs.grace == [] then [] else GraceOps(cfg, vs.grace, GraceEach(|vs.grace|, main, vs.unit), vs.bar)
  }

  // -------------------------------------------------------------- chords

  function ChordOn(cfg: Config, bar: Accidentals, notes: seq<Note>): seq<Op>
    decreases |notes|
  {
    if notes == [] then []
    else [On(PitchOf(cfg, notes[0], bar, None))] + ChordOn(cfg, Marked(bar, notes[0]), notes[1..])
  }

  function BarAfter(bar: Accidentals, notes: seq<Note>): Accidentals
    decreases |notes|
  {
    if notes == [] then bar else BarAfter(Marked(bar, notes[0]), notes[1..])
  }

  function ChordOff(cfg: Config, bar: Accidentals, notes: seq<Note>): seq<Op>
    decreases |notes|
  {
    if notes == [] then []
    else [Off(PitchOf(cfg, notes[0], bar, None))] + ChordOff(cfg, bar, notes[1..])
  }

  /** Note-offs are resolved again, after the chord's own accidentals are in force. */
  function ChordOps(cfg: Config, bar: Accidentals, notes: seq<Note>, ticks: nat): seq<Op> {
    ChordOn(cfg, bar, notes) + [Wait(ticks)] + ChordOff(cfg, BarAfter(bar, notes), notes)
  }

  // ------------------------------------------------------------ elements

  /** The principal note itself: continue or end a tie, start one, or just sound. */
  function PrincipalOps(held: map<int, nat>, p: int, ticks: nat, tie: bool): seq<Op> {
    if p in held then (if tie then [Wait(ticks)] else [Wait(ticks), Off(p)])
    else if tie then [On(p), Wait(ticks)]
    else [On(p), Wait(ticks), Off(p)]
  }

  function HeldAfter(held: map<int, nat>, p: int, ticks: nat, tie: bool): map<int, nat> {
    if p in held then (if tie then held[p := held[p] + ticks] else held - {p})
    else if tie then held[p := ticks]
    else held
  }

  function PerformNote(cfg: Config, vs: VoiceState, n: Note): (VoiceState, seq<Op>) {
    var at := (n.pitch, n.octave);
    var carried := if at in vs.carry then Some(vs.carry[at]) else None;
    var eff := Effective(n.pitch, n.accidental, vs.bar, carried);
    var p := PitchOf(cfg, n, vs.bar, carried);
    var main := ToTicks(n.duration, vs.unit);
    var ticks := SatSub(main, Stolen(|vs.grace|, main, vs.unit));
    var carry := vs.carry - {at};
    var vs' := vs.(grace := [],
                   carry := if n.tie && eff.Some? then carry[at := eff.value] else carry,
                   bar := Marked(vs.bar, n));
    (vs'.(held := HeldAfter(vs.held, p, ticks, n.tie)),
     GraceRun(cfg, vs, main) + PrincipalOps(vs.held, p, ticks, n.tie))
  }

  function PerformChord(cfg: Config, vs: VoiceState, notes: seq<Note>, d: Ratio): (VoiceState, seq<Op>) {
    var main := ToTicks(d, vs.unit);
    var ticks := SatSub(main, Stolen(|vs.grace|, main, vs.unit));
    (vs.(grace := [], bar := BarAfter(vs.bar, notes)),
     GraceRun(cfg, vs, main) + ChordOps(cfg, vs.bar, notes, ticks))
  }

  /** The length of a duration inside a p:q tuplet. */
  function TupletTicks(d: Ratio, unit: nat, p: nat, q: nat): nat {
    W32(ToTicks(d, unit) * q) / Max(p, 1)
  }

  /** One element inside a tuplet: the accidentals after it and its calls. Anything
      but a note, a rest or a chord is skipped. */
  function PerformInner(cfg: Config, bar: Accidentals, unit: nat, p: nat, q: nat, e: Element): (Accidentals, seq<Op>) {
    match e
    case ANote(n) =>
      var pitch := PitchOf(cfg, n, bar, None);
      (Marked(bar, n), [On(pitch), Wait(TupletTicks(n.duration, unit, p, q)), Off(pitch)])
    case ARest(d, _) => (bar, [Wait(TupletTicks(d, unit, p, q))])
    case AChord(ns, d) => (BarAfter(bar, ns), ChordOps(cfg, bar, ns, TupletTicks(d, unit, p, q)))
    case _ => (bar, [])
  }

  function PerformTuplet(cfg: Config, bar: Accidentals, unit: nat, p: nat, q: nat, es: seq<Element>)
    : (Accidentals, seq<Op>)
    decreases |es|
  {
    if es == [] then (bar, [])
    else
      var (bar1, ops1) := PerformInner(cfg, bar, unit, p, q, es[0]);
      var (bar2, ops2) := PerformTuplet(cfg, bar1, unit, p, q, es[1..]);
      (bar2, ops1 + ops2)
  }

  function PerformField(cfg: Config, vs: VoiceState, kind: char, value: string): VoiceState {
    if kind == 'K' then vs.(key := cfg.keyOf(value), bar := cfg.keyOf(value))
    else if kind == 'L' then
      var u := cfg.unitOf(value);
      if u.Some? then vs.(unit := UnitTicks(u.value, cfg.ticksPerBeat)) else vs
    else if kind == 'M' then vs.(meter := Some(cfg.meterOf(value)))
    else vs
  }

  function Perform(cfg: Config, vs: VoiceState, e: Element): (VoiceState, seq<Op>) {
    match e
    case ANote(n) => PerformNote(cfg, vs, n)
    case AChord(ns, d) => PerformChord(cfg, vs, ns, d)
    case ARest(d, bars) =>
      (vs, [Wait(if bars.Some? then W32(BarTicks(vs.meter, cfg.ticksPerBeat) * bars.value) else ToTicks(d, vs.unit))])
    case ABar(_) => (vs.(bar := vs.key), [])
    case AField(kind, value) => (PerformField(cfg, vs, kind, value), [])
    case Graces(_, ns) => (vs.(grace := ns), [])
    case ATuplet(p, q, es) =>
      var (bar, ops) := PerformTuplet(cfg, vs.bar, vs.unit, p, q, es);
      (vs.(bar := bar), ops)
    case _ => (vs, [])
  }

  function PerformAll(cfg: Config, vs: VoiceState, es: seq<Element>): (VoiceState, seq<Op>)
    decreases |es|
  {
    if es == [] then (vs, [])
    else
      var (vs1, ops1) := Perform(cfg, vs, es[0]);
      var (vs2, ops2) := PerformAll(cfg, vs1, es[1..]);
      (vs2, ops1 + ops2)
  }

  /** The pitches still held at the end of a voice, in the order the hash map
      happens to give them. */
  ghost predicate Lists(order: seq<int>, held: map<int, nat>) {
    && (forall i :: 0 <= i < |order| ==> order[i] in held)
    && (forall p :: p in held ==> p in order)
    && forall i, j :: 0 <= i < j < |order| ==> order[i] != order[j]
  }

  function Flush(order: seq<int>): seq<Op> {
    if order == [] then [] else [Off(order[0])] + Flush(order[1..])
  }

  function Fresh(key: Accidentals, unit: nat, meter: Option<Meter>): VoiceState {
    VoiceState(key, map[], map[], key, unit, meter, [])
  }

  /** Playing xs then ys is playing xs and, from the state it leaves, ys. */
  lemma {:induction false} StateConcat(cfg: Config, vs: VoiceState, xs: seq<Element>, ys: seq<Element>)
    ensures PerformAll(cfg, vs, xs + ys).0 == PerformAll(cfg, PerformAll(cfg, vs, xs).0, ys).0
    decreases |xs|
  {
    if xs == [] {
      assert xs + ys == ys;
    } else {
      assert (xs + ys)[1..] == xs[1..] + ys;
      StateConcat(cfg, Perform(cfg, vs, xs[0]).0, xs[1..], ys);
    }
  }

  lemma {:induction false} OpsConcat(cfg: Config, vs: VoiceState, xs: seq<Element>, ys: seq<Element>)
    ensures PerformAll(cfg, vs, xs + ys).1
            == PerformAll(cfg, vs, xs).1 + PerformAll(cfg, PerformAll(cfg, vs, xs).0, ys).1
    decreases |xs|
  {
    if xs == [] {
      assert xs + ys == ys;
    } else {
      assert (xs + ys)[1..] == xs[1..] + ys;
      var vs1 := Perform(cfg, vs, xs[0]).0;
      OpsConcat(cfg, vs1, xs[1..], ys);
      Regroup(Perform(cfg, vs, xs[0]).1, PerformAll(cfg, vs1, xs[1..]).1,
          PerformAll(cfg, PerformAll(cfg, vs, xs).0, ys).1,
              PerformAll(cfg, vs, xs).1, PerformAll(cfg, vs1, xs[1..] + ys).1);
    }
  }

  lemma {:induction false} Regroup(a: seq<Op>, b: seq<Op>, c: seq<Op>, ab: seq<Op>, bc: seq<Op>)
    requires ab == a + b && bc == b + c
    ensures a + bc == ab + c
  {
  }
}
