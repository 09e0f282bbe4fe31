/** A voice read by looking back: at each element, which accidental, key, unit
    length, meter, graces and ties are in effect, and so what it sounds. */
module VoiceSounds {
  import opened Prelude
  import opened AbcAst
  import opened VoiceRender
  import opened VoiceReading

  // ------------------------------------------------------ accidentals

  /** Which accidental is in effect for each letter. */
  type Env = NoteName -> Option<Accidental>

  function Or(a: Option<Accidental>, b: Option<Accidental>): Option<Accidental> {
    if a.Some? then a else b
  }

  function Sign(marks: Accidentals, name: NoteName): Option<Accidental> {
    if name in marks then Some(marks[name]) else None
  }

  /** The last accidental written on a letter among some notes. */
  function LastMark(ns: seq<Note>, name: NoteName): Option<Accidental>
    decreases |ns|
  {
    if ns == [] then None
    else
      var n := ns[|ns| - 1];
      if n.pitch == name && n.accidental.Some? then n.accidental else LastMark(ns[..|ns| - 1], name)
  }

  /** The same among the notes and chords of a tuplet. */
  function InnerMark(es: seq<Element>, name: NoteName): Option<Accidental>
    decreases |es|
  {
    if es == [] then None
    else
      var e, before := es[|es| - 1], es[..|es| - 1];
      match e
      case ANote(n) => Or(LastMark([n], name), InnerMark(before, name))
      case AChord(ns, _) => Or(LastMark(ns, name), InnerMark(before, name))
      case _ => InnerMark(before, name)
  }

  // -------------------------------------------------------- looking back

  /** The key signature in effect: the last `K:` field's, else the tune's. */
  function KeyAt(cfg: Config, v0: VoiceState, es: seq<Element>): Accidentals
    decreases |es|
  {
    if es == [] then v0.key
    else
      var e, before := es[|es| - 1], es[..|es| - 1];
      if e.AField? && e.kind == 'K' then cfg.keyOf(e.value) else KeyAt(cfg, v0, before)
  }

  /** Ticks in the unit length in effect: the last readable `L:` field's, else the tune's. */
  function UnitAt(cfg: Config, v0: VoiceState, es: seq<Element>): nat
    decreases |es|
  {
    if es == [] then v0.unit
    else
      var e, before := es[|es| - 1], es[..|es| - 1];
      if e.AField? && e.kind == 'L' && cfg.unitOf(e.value).Some?
      then UnitTicks(cfg.unitOf(e.value).value, cfg.ticksPerBeat) else UnitAt(cfg, v0, before)
  }

  function MeterAt(cfg: Config, v0: VoiceState, es: seq<Element>): Option<Meter>
    decreases |es|
  {
    if es == [] then v0.meter
    else
      var e, before := es[|es| - 1], es[..|es| - 1];
      if e.AField? && e.kind == 'M' then Some(cfg.meterOf(e.value)) else MeterAt(cfg, v0, before)
  }

  /** The graces waiting for a principal: the last group, if no note or chord came since. */
  function GracesAt(es: seq<Element>): seq<Note>
    decreases |es|
  {
    if es == [] then []
    else match es[|es| - 1]
      case Graces(_, ns) => ns
      case ANote(_) => []
      case AChord(_, _) => []
      case _ => GracesAt(es[..|es| - 1])
  }

  /** The accidental in effect on a letter: the last one written on it since the
      bar line, in any octave, else the key's. */
  function InForce(cfg: Config, v0: VoiceState, es: seq<Element>, name: NoteName): Option<Accidental>
    decreases |es|
  {
    if es == [] then Sign(v0.key, name)
    else
      var e, before := es[|es| - 1], es[..|es| - 1];
      match e
      case ANote(n) => Or(LastMark([n], name), InForce(cfg, v0, before, name))
      case AChord(ns, _) => Or(LastMark(ns, name), InForce(cfg, v0, before, name))
      case ATuplet(_, _, inner) => Or(InnerMark(inner, name), InForce(cfg, v0, before, name))
      case ABar(_) => Sign(KeyAt(cfg, v0, before), name)
      case AField(kind, value) => if kind == 'K' then Sign(cfg.keyOf(value), name) else InForce(cfg, v0, before, name)
      case _ => InForce(cfg, v0, before, name)
  }

  /** The accidental of a note: its own, else the one in force, else the one of
      the note tied to it. */
  function AccOf(cfg: Config, v0: VoiceState, es: seq<Element>, n: Note): Option<Accidental>
    decreases |es|, 1
  {
    Or(n.accidental, Or(InForce(cfg, v0, es, n.pitch), TieMark(cfg, v0, es, n.pitch, n.octave)))
  }

  /** The accidental a tie carries: that of the last note of this letter and
      octave, if it is tied. */
  function TieMark(cfg: Config, v0: VoiceState, es: seq<Element>, name: NoteName, octave: int): Option<Accidental>
    decreases |es|, 0
  {
    if es == [] then None
    else
      var e, before := es[|es| - 1], es[..|es| - 1];
      if e.ANote? && e.note.pitch == name && e.note.octave == octave
      then (if e.note.tie then AccOf(cfg, v0, before, e.note) else None)
      else TieMark(cfg, v0, before, name, octave)
  }

  /** The pitch a note sounds at. */
  function PitchAt(cfg: Config, v0: VoiceState, es: seq<Element>, n: Note): int {
    Tone(n, AccOf(cfg, v0, es, n), cfg.offset)
  }

  /** Is a pitch held: was the last note at it tied? */
  predicate TiedAt(cfg: Config, v0: VoiceState, es: seq<Element>, p: int)
    decreases |es|
  {
    es != [] &&
    var e, before := es[|es| - 1], es[..|es| - 1];
    if e.ANote? && PitchAt(cfg, v0, before, e.note) == p then e.note.tie else TiedAt(cfg, v0, before, p)
  }

  // --------------------------------------------------------- what sounds

  function Read(n: Note, env: Env): Option<Accidental> {
    Or(n.accidental, env(n.pitch))
  }

  function Marking(env: Env, ns: seq<Note>): Env {
    (name: NoteName) => Or(LastMark(ns, name), env(name))
  }

  /** A chord's notes start one after the other, each under the marks of those before it. */
  function ChordStarts(ns: seq<Note>, env: Env, offset: int): seq<Op> {
    seq(|ns|, i requires 0 <= i < |ns| => On(Tone(ns[i], Read(ns[i], Marking(env, ns[..i])), offset)))
  }

  /** They stop under the marks of all. */
  function ChordStops(ns: seq<Note>, env: Env, offset: int): seq<Op> {
    seq(|ns|, i requires 0 <= i < |ns| => Off(Tone(ns[i], Read(ns[i], Marking(env, ns)), offset)))
  }

  function ChordSounds(ns: seq<Note>, env: Env, offset: int, ticks: nat): seq<Op> {
    ChordStarts(ns, env, offset) + [Wait(ticks)] + ChordStops(ns, env, offset)
  }

  function GraceSounds(gs: seq<Note>, env: Env, offset: int, each: nat): seq<Op> {
    if gs == [] then []
    else
      var t := Tone(gs[0], Read(gs[0], env), offset);
      [On(t), Wait(each), Off(t)] + GraceSounds(gs[1..], env, offset, each)
  }

  /** The graces waiting, before a principal of `main` ticks. */
  function GracesFirst(cfg: Config, v0: VoiceState, es: seq<Element>, main: nat): seq<Op> {
    var gs := GracesAt(es);
    if gs == [] then []
    else GraceSounds(gs, EnvAt(cfg, v0, es), cfg.offset, GraceEach(|gs|, main, UnitAt(cfg, v0, es)))
  }

  function EnvAt(cfg: Config, v0: VoiceState, es: seq<Element>): Env {
    (name: NoteName) => InForce(cfg, v0, es, name)
  }

  function InnerEnv(env: Env, xs: seq<Element>): Env {
    (name: NoteName) => Or(InnerMark(xs, name), env(name))
  }

  /** What is left of a principal after its graces. */
  function Principal(cfg: Config, v0: VoiceState, es: seq<Element>, main: nat): nat {
    SatSub(main, Stolen(|GracesAt(es)|, main, UnitAt(cfg, v0, es)))
  }

  /** The elements of a p:q tuplet. */
  function TupletSounds(env: Env, offset: int, unit: nat, p: nat, q: nat, xs: seq<Element>): seq<Op>
    decreases |xs|
  {
    if xs == [] then []
    else
      var x, before := xs[|xs| - 1], xs[..|xs| - 1];
      TupletSounds(env, offset, unit, p, q, before) + InnerSounds(InnerEnv(env, before), offset, unit, p, q, x)
  }

  function InnerSounds(env: Env, offset: int, unit: nat, p: nat, q: nat, x: Element): seq<Op> {
    match x
    case ANote(n) =>
      var t := Tone(n, Read(n, env), offset);
      [On(t), Wait(TupletTicks(n.duration, unit, p, q)), Off(t)]
    case ARest(d, _) => [Wait(TupletTicks(d, unit, p, q))]
    case AChord(ns, d) => ChordSounds(ns, env, offset, TupletTicks(d, unit, p, q))
    case _ => []
  }

  /** What an element sounds after the elements before it. A note starts unless
      its pitch is held, and stops unless it is tied. */
  function Sounds(cfg: Config, v0: VoiceState, es: seq<Element>, e: Element): seq<Op> {
    var unit := UnitAt(cfg, v0, es);
    match e
    case ANote(n) =>
      var main, t := ToTicks(n.duration, unit), PitchAt(cfg, v0, es, n);
      GracesFirst(cfg, v0, es, main)
      + ((if TiedAt(cfg, v0, es, t) then [] else [On(t)]) + [Wait(Principal(cfg, v0, es, main))]
         + (if n.tie then [] else [Off(t)]))
    case AChord(ns, d) =>
      var main := ToTicks(d, unit);
      GracesFirst(cfg, v0, es, main)
      + ChordSounds(ns, EnvAt(cfg, v0, es), cfg.offset, Principal(cfg, v0, es, main))
    case ARest(d, bars) =>
      [Wait(if bars.Some? then W32(BarTicks(MeterAt(cfg, v0, es), cfg.ticksPerBeat) * bars.value)
          else ToTicks(d, unit))]
    case ATuplet(p, q, xs) => TupletSounds(EnvAt(cfg, v0, es), cfg.offset, unit, p, q, xs)
    case _ => []
  }

  /** What a voice sounds, tied notes left ringing at its end aside. */
  function VoiceSoundsAll(cfg: Config, v0: VoiceState, es: seq<Element>): seq<Op>
    decreases |es|
  {
    if es == [] then []
    else
      var e, before := es[|es| - 1], es[..|es| - 1];
      VoiceSoundsAll(cfg, v0, before) + Sounds(cfg, v0, before, e)
  }

  // ---------------------------------------------- the octaves that fit

  predicate PlainNotes(ns: seq<Note>) {
    forall i :: 0 <= i < |ns| ==> Plain(ns[i])
  }

  predicate PlainElement(e: Element) {
    match e
    case ANote(n) => Plain(n)
    case AChord(ns, _) => PlainNotes(ns)
    case Graces(_, ns) => PlainNotes(ns)
    case ATuplet(_, _, xs) => forall i :: 0 <= i < |xs| ==> PlainInner(xs[i])
    case _ => true
  }

  predicate PlainInner(e: Element) {
    (e.ANote? ==> Plain(e.note)) && (e.AChord? ==> PlainNotes(e.notes))
  }

  predicate PlainVoice(es: seq<Element>) {
    forall i :: 0 <= i < |es| ==> PlainElement(es[i])
  }

  // ------------------------------------------------- the renderer agrees

  ghost predicate Agrees(bar: Accidentals, env: Env) {
    forall name :: Sign(bar, name) == env(name)
  }

  lemma {:induction false} PitchRead(cfg: Config, n: Note, bar: Accidentals, env: Env)
    requires Plain(n) && Agrees(bar, env)
    ensures PitchOf(cfg, n, bar, None) == Tone(n, Read(n, env), cfg.offset)
  {
    SoundsAsWritten(cfg, n, bar, None);
    assert Sign(bar, n.pitch) == env(n.pitch);
  }

  lemma {:induction false} BarSnoc(bar: Accidentals, ns: seq<Note>, n: Note)
    ensures BarAfter(bar, ns + [n]) == Marked(BarAfter(bar, ns), n)
    decreases |ns|
  {
    if ns == [] {
      assert ns + [n] == [n] && [n][1..] == [];
    } else {
      assert (ns + [n])[1..] == ns[1..] + [n];
      BarSnoc(Marked(bar, ns[0]), ns[1..], n);
    }
  }

  /** The notes of a chord mark the bar in turn. */
  lemma {:induction false} BarReads(bar: Accidentals, env: Env, ns: seq<Note>)
    requires Agrees(bar, env)
    ensures Agrees(BarAfter(bar, ns), Marking(env, ns))
    decreases |ns|
  {
    if ns != [] {
      var before, n := ns[..|ns| - 1], ns[|ns| - 1];
      BarReads(bar, env, before);
      BarSnoc(bar, before, n);
      assert before + [n] == ns;
      forall name
        ensures Sign(BarAfter(bar, ns), name) == Marking(env, ns)(name)
      {
        assert Sign(BarAfter(bar, before), name) == Marking(env, before)(name);
      }
    }
  }

  lemma {:induction false} StartsAre(cfg: Config, bar: Accidentals, ns: seq<Note>)
    ensures |ChordOn(cfg, bar, ns)| == |ns|
    ensures forall i :: 0 <= i < |ns| ==>
              ChordOn(cfg, bar, ns)[i] == On(PitchOf(cfg, ns[i], BarAfter(bar, ns[..i]), None))
    decreases |ns|
  {
    if ns != [] {
      StartsAre(cfg, Marked(bar, ns[0]), ns[1..]);
      forall i | 0 <= i < |ns|
        ensures ChordOn(cfg, bar, ns)[i] == On(PitchOf(cfg, ns[i], BarAfter(bar, ns[..i]), None))
      {
        if i > 0 {
          assert ns[..i][1..] == ns[1..][..i - 1] && ns[..i][0] == ns[0];
        }
      }
    }
  }

  lemma {:induction false} StopsAre(cfg: Config, bar: Accidentals, ns: seq<Note>)
    ensures |ChordOff(cfg, bar, ns)| == |ns|
    ensures forall i :: 0 <= i < |ns| ==> ChordOff(cfg, bar, ns)[i] == Off(PitchOf(cfg, ns[i], bar, None))
    decreases |ns|
  {
    if ns != [] {
      StopsAre(cfg, bar, ns[1..]);
    }
  }

  lemma {:induction false} ChordReads(cfg: Config, bar: Accidentals, env: Env, ns: seq<Note>, ticks: nat)
    requires Agrees(bar, env) && PlainNotes(ns)
    ensures ChordOps(cfg, bar, ns, ticks) == ChordSounds(ns, env, cfg.offset, ticks)
  {
    StartsAre(cfg, bar, ns);
    StopsAre(cfg, BarAfter(bar, ns), ns);
    BarReads(bar, env, ns);
    var on, off := ChordStarts(ns, env, cfg.offset), ChordStops(ns, env, cfg.offset);
    forall i | 0 <= i < |ns|
      ensures ChordOn(cfg, bar, ns)[i] == on[i] && ChordOff(cfg, BarAfter(bar, ns), ns)[i] == off[i]
    {
      BarReads(bar, env, ns[..i]);
      PitchRead(cfg, ns[i], BarAfter(bar, ns[..i]), Marking(env, ns[..i]));
      PitchRead(cfg, ns[i], BarAfter(bar, ns), Marking(env, ns));
    }
    assert ChordOn(cfg, bar, ns) == on && ChordOff(cfg, BarAfter(bar, ns), ns) == off;
  }

  lemma {:induction false} GracesRead(cfg: Config, bar: Accidentals, env: Env, gs: seq<Note>, each: nat)
    requires Agrees(bar, env) && PlainNotes(gs)
    ensures GraceOps(cfg, gs, each, bar) == GraceSounds(gs, env, cfg.offset, each)
    decreases |gs|
  {
    if gs != [] {
      PitchRead(cfg, gs[0], bar, env);
      GracesRead(cfg, bar, env, gs[1..], each);
    }
  }

  // ------------------------------------------------------------- tuplets

  lemma {:induction false} TupletSnoc(cfg: Config, bar: Accidentals, unit: nat, p: nat, q: nat, xs: seq<Element>,
                                      x: Element)
    ensures var (bar1, ops1) := PerformTuplet(cfg, bar, unit, p, q, xs);
            var (bar2, ops2) := PerformInner(cfg, bar1, unit, p, q, x);
            PerformTuplet(cfg, bar, unit, p, q, xs + [x]) == (bar2, ops1 + ops2)
    decreases |xs|
  {
    if xs == [] {
      assert xs + [x] == [x] && [x][1..] == [];
      var (bar2, ops2) := PerformInner(cfg, bar, unit, p, q, x);
      assert ops2 + [] == ops2 && [] + ops2 == ops2;
    } else {
      assert (xs + [x])[1..] == xs[1..] + [x] && (xs + [x])[0] == xs[0];
      var (bar0, ops0) := PerformInner(cfg, bar, unit, p, q, xs[0]);
      TupletSnoc(cfg, bar0, unit, p, q, xs[1..], x);
      var (bar1, ops1) := PerformTuplet(cfg, bar0, unit, p, q, xs[1..]);
      var (bar2, ops2) := PerformInner(cfg, bar1, unit, p, q, x);
      assert ops0 + (ops1 + ops2) == (ops0 + ops1) + ops2;
    }
  }

  lemma {:induction false} InnerReads(cfg: Config, bar: Accidentals, env: Env, unit: nat, p: nat, q: nat, x: Element)
    requires Agrees(bar, env) && PlainInner(x)
    ensures PerformInner(cfg, bar, unit, p, q, x).1 == InnerSounds(env, cfg.offset, unit, p, q, x)
  {
    match x
    case ANote(n) => PitchRead(cfg, n, bar, env);
    case AChord(ns, d) => ChordReads(cfg, bar, env, ns, TupletTicks(d, unit, p, q));
    case _ =>
  }

  lemma {:induction false} OneMark(n: Note, name: NoteName)
    ensures LastMark([n], name) == if n.pitch == name then n.accidental else None
  {
    assert [n][..0] == [];
  }

  lemma {:induction false} MarkedReads(bar: Accidentals, env: Env, n: Note, name: NoteName)
    requires Agrees(bar, env)
    ensures Sign(Marked(bar, n), name) == Or(LastMark([n], name), env(name))
  {
    OneMark(n, name);
    assert Sign(bar, name) == env(name);
  }

  lemma {:induction false} OneInner(before: seq<Element>, x: Element, name: NoteName)
    ensures InnerMark(before + [x], name) ==
            match x
            case ANote(n) => Or(LastMark([n], name), InnerMark(before, name))
            case AChord(ns, _) => Or(LastMark(ns, name), InnerMark(before, name))
            case _ => InnerMark(before, name)
  {
    assert (before + [x])[..|before|] == before;
  }

  lemma {:induction false} InnerMarks(cfg: Config, bar: Accidentals, env: Env, unit: nat, p: nat, q: nat,
                                      before: seq<Element>, x: Element)
    requires Agrees(bar, InnerEnv(env, before))
    ensures Agrees(PerformInner(cfg, bar, unit, p, q, x).0, InnerEnv(env, before + [x]))
  {
    var inner := InnerEnv(env, before);
    forall name
      ensures Sign(PerformInner(cfg, bar, unit, p, q, x).0, name) == InnerEnv(env, before + [x])(name)
    {
      OneInner(before, x, name);
      assert Sign(bar, name) == inner(name);
      match x
      case ANote(n) => MarkedReads(bar, inner, n, name);
      case AChord(ns, d) =>
        BarReads(bar, inner, ns);
        assert Sign(BarAfter(bar, ns), name) == Marking(inner, ns)(name);
      case _ =>
    }
  }

  lemma {:induction false} TupletReads(cfg: Config, bar: Accidentals, env: Env, unit: nat, p: nat, q: nat,
                                       xs: seq<Element>)
    requires Agrees(bar, env) && forall i :: 0 <= i < |xs| ==> PlainInner(xs[i])
    ensures PerformTuplet(cfg, bar, unit, p, q, xs).1 == TupletSounds(env, cfg.offset, unit, p, q, xs)
    ensures Agrees(PerformTuplet(cfg, bar, unit, p, q, xs).0, InnerEnv(env, xs))
    decreases |xs|
  {
    if xs != [] {
      var before, x := xs[..|xs| - 1], xs[|xs| - 1];
      assert before + [x] == xs;
      TupletReads(cfg, bar, env, unit, p, q, before);
      TupletSnoc(cfg, bar, unit, p, q, before, x);
      var bar1 := PerformTuplet(cfg, bar, unit, p, q, before).0;
      InnerReads(cfg, bar1, InnerEnv(env, before), unit, p, q, x);
      InnerMarks(cfg, bar1, env, unit, p, q, before, x);
    } else {
      forall name
        ensures Sign(bar, name) == InnerEnv(env, xs)(name)
      {
        assert Sign(bar, name) == env(name);
      }
    }
  }

  // ----------------------------------------------------------- the voice

  /** The state of the renderer is what looking back finds. */
  ghost predicate Looks(cfg: Config, v0: VoiceState, es: seq<Element>, vs: VoiceState) {
    && Agrees(vs.bar, EnvAt(cfg, v0, es))
    && vs.key == KeyAt(cfg, v0, es) && vs.unit == UnitAt(cfg, v0, es) && vs.meter == MeterAt(cfg, v0, es)
    && vs.grace == GracesAt(es)
    && (forall name, octave :: Tie(vs.carry, name, octave) == TieMark(cfg, v0, es, name, octave))
    && forall p :: p in vs.held <==> TiedAt(cfg, v0, es, p)
  }

  function Tie(carry: map<(NoteName, int), Accidental>, name: NoteName, octave: int): Option<Accidental> {
    if (name, octave) in carry then Some(carry[(name, octave)]) else None
  }

  predicate Blank(v0: VoiceState) {
    v0 == Fresh(v0.key, v0.unit, v0.meter)
  }

  /** The fields and the graces, one element further. */
  lemma {:induction false} FieldsMore(cfg: Config, v0: VoiceState, es: seq<Element>, e: Element, vs: VoiceState)
    requires vs.key == KeyAt(cfg, v0, es) && vs.unit == UnitAt(cfg, v0, es) && vs.meter == MeterAt(cfg, v0, es)
    requires vs.grace == GracesAt(es)
    ensures var v := Perform(cfg, vs, e).0;
            && v.key == KeyAt(cfg, v0, es + [e]) && v.unit == UnitAt(cfg, v0, es + [e])
                && v.meter == MeterAt(cfg, v0, es + [e])
            && v.grace == GracesAt(es + [e])
  {
    assert (es + [e])[..|es|] == es;
  }

  lemma {:induction false} InForceMore(cfg: Config, v0: VoiceState, es: seq<Element>, e: Element, name: NoteName)
    ensures InForce(cfg, v0, es + [e], name) ==
            match e
            case ANote(n) => Or(LastMark([n], name), InForce(cfg, v0, es, name))
            case AChord(ns, _) => Or(LastMark(ns, name), InForce(cfg, v0, es, name))
            case ATuplet(_, _, inner) => Or(InnerMark(inner, name), InForce(cfg, v0, es, name))
            case ABar(_) => Sign(KeyAt(cfg, v0, es), name)
            case AField(kind, value) => if kind == 'K' then Sign(cfg.keyOf(value), name) else InForce(cfg, v0, es, name)
            case _ => InForce(cfg, v0, es, name)
  {
    assert (es + [e])[..|es|] == es;
  }

  /** The accidentals, one element further. */
  lemma {:induction false} BarMore(cfg: Config, v0: VoiceState, es: seq<Element>, e: Element, vs: VoiceState)
    requires Agrees(vs.bar, EnvAt(cfg, v0, es)) && vs.key == KeyAt(cfg, v0, es) && PlainElement(e)
    ensures Agrees(Perform(cfg, vs, e).0.bar, EnvAt(cfg, v0, es + [e]))
  {
    var env := EnvAt(cfg, v0, es);
    forall name
      ensures Sign(Perform(cfg, vs, e).0.bar, name) == EnvAt(cfg, v0, es + [e])(name)
    {
      InForceMore(cfg, v0, es, e, name);
      assert Sign(vs.bar, name) == env(name);
      match e
      case ANote(n) => MarkedReads(vs.bar, env, n, name);
      case AChord(ns, _) =>
        BarReads(vs.bar, env, ns);
        assert Sign(BarAfter(vs.bar, ns), name) == Marking(env, ns)(name);
      case ATuplet(p, q, xs) =>
        TupletReads(cfg, vs.bar, env, vs.unit, p, q, xs);
        assert Sign(PerformTuplet(cfg, vs.bar, vs.unit, p, q, xs).0, name) == InnerEnv(env, xs)(name);
      case _ =>
    }
  }

  /** The pitch and the accidental of a note, as the renderer resolves them. */
  lemma {:induction false} NotePitch(cfg: Config, v0: VoiceState, es: seq<Element>, n: Note, vs: VoiceState)
    requires Looks(cfg, v0, es, vs) && Plain(n)
    ensures Effective(n.pitch, n.accidental, vs.bar, Tie(vs.carry, n.pitch, n.octave)) == AccOf(cfg, v0, es, n)
    ensures PitchOf(cfg, n, vs.bar, Tie(vs.carry, n.pitch, n.octave)) == PitchAt(cfg, v0, es, n)
  {
    assert Sign(vs.bar, n.pitch) == EnvAt(cfg, v0, es)(n.pitch);
    SoundsAsWritten(cfg, n, vs.bar, Tie(vs.carry, n.pitch, n.octave));
  }

  lemma {:induction false} TieMarkMore(cfg: Config, v0: VoiceState, es: seq<Element>, e: Element, name: NoteName,
                                       octave: int)
    ensures TieMark(cfg, v0, es + [e], name, octave) ==
            if e.ANote? && e.note.pitch == name && e.note.octave == octave
            then (if e.note.tie then AccOf(cfg, v0, es, e.note) else None)
            else TieMark(cfg, v0, es, name, octave)
  {
    assert (es + [e])[..|es|] == es;
  }

  lemma {:induction false} TiedMore(cfg: Config, v0: VoiceState, es: seq<Element>, e: Element, p: int)
    ensures TiedAt(cfg, v0, es + [e], p) ==
            if e.ANote? && PitchAt(cfg, v0, es, e.note) == p then e.note.tie else TiedAt(cfg, v0, es, p)
  {
    assert (es + [e])[..|es|] == es;
  }

  lemma {:induction false} CarryAfter(cfg: Config, vs: VoiceState, e: Element, name: NoteName, octave: int)
    ensures Tie(Perform(cfg, vs, e).0.carry, name, octave) ==
            if e.ANote? && e.note.pitch == name && e.note.octave == octave
            then (if e.note.tie then Effective(name, e.note.accidental, vs.bar, Tie(vs.carry, name, octave)) else None)
            else Tie(vs.carry, name, octave)
  {
    if e.ANote? {
      NoteCarry(cfg, vs, e.note, name, octave);
    }
  }

  lemma {:induction false} NoteCarry(cfg: Config, vs: VoiceState, n: Note, name: NoteName, octave: int)
    ensures Tie(PerformNote(cfg, vs, n).0.carry, name, octave) ==
            if n.pitch == name && n.octave == octave
            then (if n.tie then Effective(name, n.accidental, vs.bar, Tie(vs.carry, name, octave)) else None)
            else Tie(vs.carry, name, octave)
  {
  }

  lemma {:induction false} HeldAfterIs(cfg: Config, vs: VoiceState, e: Element, p: int)
    ensures p in Perform(cfg, vs, e).0.held <==>
            if e.ANote? && PitchOf(cfg, e.note, vs.bar, Tie(vs.carry, e.note.pitch, e.note.octave)) == p then e.note.tie
            else p in vs.held
  {
    if e.ANote? {
      NoteHeld(cfg, vs, e.note, p);
    }
  }

  lemma {:induction false} NoteHeld(cfg: Config, vs: VoiceState, n: Note, p: int)
    ensures p in PerformNote(cfg, vs, n).0.held <==>
            if PitchOf(cfg, n, vs.bar, Tie(vs.carry, n.pitch, n.octave)) == p then n.tie else p in vs.held
  {
  }

  /** The ties, one element further. */
  lemma {:induction false} TiesMore(cfg: Config, v0: VoiceState, es: seq<Element>, e: Element, vs: VoiceState)
    requires Looks(cfg, v0, es, vs) && PlainElement(e)
    ensures var v := Perform(cfg, vs, e).0;
            && (forall name, octave :: Tie(v.carry, name, octave) == TieMark(cfg, v0, es + [e], name, octave))
            && forall p :: p in v.held <==> TiedAt(cfg, v0, es + [e], p)
  {
    var carry, held := Perform(cfg, vs, e).0.carry, Perform(cfg, vs, e).0.held;
    if e.ANote? {
      NotePitch(cfg, v0, es, e.note, vs);
    }
    forall name, octave
      ensures Tie(carry, name, octave) == TieMark(cfg, v0, es + [e], name, octave)
    {
      TieMarkMore(cfg, v0, es, e, name, octave);
      CarryAfter(cfg, vs, e, name, octave);
      assert Tie(vs.carry, name, octave) == TieMark(cfg, v0, es, name, octave);
    }
    forall p
      ensures p in held <==> TiedAt(cfg, v0, es + [e], p)
    {
      TiedMore(cfg, v0, es, e, p);
      HeldAfterIs(cfg, vs, e, p);
      assert p in vs.held <==> TiedAt(cfg, v0, es, p);
    }
  }

  lemma {:induction false} LooksMore(cfg: Config, v0: VoiceState, es: seq<Element>, e: Element, vs: VoiceState)
    requires Looks(cfg, v0, es, vs) && PlainElement(e)
    ensures Looks(cfg, v0, es + [e], Perform(cfg, vs, e).0)
  {
    FieldsMore(cfg, v0, es, e, vs);
    BarMore(cfg, v0, es, e, vs);
    TiesMore(cfg, v0, es, e, vs);
  }

  lemma {:induction false} GraceRunReads(cfg: Config, v0: VoiceState, es: seq<Element>, vs: VoiceState, main: nat)
    requires Looks(cfg, v0, es, vs) && PlainNotes(vs.grace)
    ensures GraceRun(cfg, vs, main) == GracesFirst(cfg, v0, es, main)
  {
    if vs.grace != [] {
      GracesRead(cfg, vs.bar, EnvAt(cfg, v0, es), vs.grace, GraceEach(|vs.grace|, main, vs.unit));
    }
  }

  /** What an element sounds is what looking back says. */
  lemma {:induction false} ElementReads(cfg: Config, v0: VoiceState, es: seq<Element>, e: Element, vs: VoiceState)
    requires Looks(cfg, v0, es, vs) && PlainElement(e) && PlainNotes(vs.grace)
    ensures Perform(cfg, vs, e).1 == Sounds(cfg, v0, es, e)
  {
    match e
    case ANote(n) => NoteReads(cfg, v0, es, n, vs);
    case AChord(ns, d) =>
      var main := ToTicks(d, vs.unit);
      GraceRunReads(cfg, v0, es, vs, main);
      ChordReads(cfg, vs.bar, EnvAt(cfg, v0, es), ns, SatSub(main, Stolen(|vs.grace|, main, vs.unit)));
    case ATuplet(p, q, xs) => TupletReads(cfg, vs.bar, EnvAt(cfg, v0, es), vs.unit, p, q, xs);
    case _ =>
  }

  lemma {:induction false} NoteReads(cfg: Config, v0: VoiceState, es: seq<Element>, n: Note, vs: VoiceState)
    requires Looks(cfg, v0, es, vs) && Plain(n) && PlainNotes(vs.grace)
    ensures PerformNote(cfg, vs, n).1 == Sounds(cfg, v0, es, ANote(n))
  {
    var main := ToTicks(n.duration, vs.unit);
    var ticks, p := SatSub(main, Stolen(|vs.grace|, main, vs.unit)), PitchAt(cfg, v0, es, n);
    NotePitch(cfg, v0, es, n, vs);
    GraceRunReads(cfg, v0, es, vs, main);
    assert p in vs.held <==> TiedAt(cfg, v0, es, p);
    PrincipalReads(vs.held, p, ticks, n.tie);
  }

  lemma {:induction false} PrincipalReads(held: map<int, nat>, p: int, ticks: nat, tie: bool)
    ensures PrincipalOps(held, p, ticks, tie) ==
            (if p in held then [] else [On(p)]) + [Wait(ticks)] + (if tie then [] else [Off(p)])
  {
  }

  lemma {:induction false} GracesPlain(es: seq<Element>)
    requires PlainVoice(es)
    ensures PlainNotes(GracesAt(es))
    decreases |es|
  {
    if es != [] {
      assert PlainElement(es[|es| - 1]);
      GracesPlain(es[..|es| - 1]);
    }
  }

  /** Over any elements the renderer makes the calls that looking back says: each
      note at its written pitch under the last accidental on its letter since the
      bar line, else the key's, else its tie's; for its length. */
  lemma {:induction false} VoiceIsRead(cfg: Config, v0: VoiceState, es: seq<Element>)
    requires Blank(v0) && PlainVoice(es)
    ensures Looks(cfg, v0, es, PerformAll(cfg, v0, es).0)
    ensures PerformAll(cfg, v0, es).1 == VoiceSoundsAll(cfg, v0, es)
    decreases |es|
  {
    if es != [] {
      var e, before := es[|es| - 1], es[..|es| - 1];
      var vs := PerformAll(cfg, v0, before).0;
      assert before + [e] == es;
      VoiceIsRead(cfg, v0, before);
      GracesPlain(before);
      LooksMore(cfg, v0, before, e, vs);
      ElementReads(cfg, v0, before, e, vs);
      StateConcat(cfg, v0, before, [e]);
      OpsConcat(cfg, v0, before, [e]);
      OneElement(cfg, vs, e);
    }
  }

  lemma {:induction false} OneElement(cfg: Config, vs: VoiceState, e: Element)
    ensures PerformAll(cfg, vs, [e]) == Perform(cfg, vs, e)
  {
    assert [e][1..] == [];
    assert Perform(cfg, vs, e).1 + [] == Perform(cfg, vs, e).1;
  }
}
