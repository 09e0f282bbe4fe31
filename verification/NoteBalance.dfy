/** Note balance: what a voice switches on it switches off. */
module NoteBalance {
  import opened Prelude
  import opened AbcAst
  import opened VoiceRender

  function Delta(op: Op, p: int): int {
    if op == On(p) then 1 else if op == Off(p) then -1 else 0
  }

  /** Note-ons less note-offs at pitch p. */
  function Net(ops: seq<Op>, p: int): int {
    if ops == [] then 0 else Delta(ops[0], p) + Net(ops[1..], p)
  }

  lemma {:induction false} NetConcat(xs: seq<Op>, ys: seq<Op>, p: int)
    ensures Net(xs + ys, p) == Net(xs, p) + Net(ys, p)
  {
    if xs == [] {
      assert xs + ys == ys;
    } else {
      assert (xs + ys)[1..] == xs[1..] + ys;
      NetConcat(xs[1..], ys, p);
    }
  }

  function Holding(held: map<int, nat>, p: int): int {
    if p in held then 1 else 0
  }

  // ------------------------------------------- what chords leave behind

  function Count(m: multiset<int>, p: int): int {
    m[p]
  }

  lemma {:induction false} SameCounts(a: multiset<int>, b: multiset<int>)
    requires forall p :: Count(a, p) == Count(b, p)
    ensures a == b
  {
    forall p
      ensures a[p] == b[p]
    {
      assert Count(a, p) == Count(b, p);
    }
  }

  function Unless(marked: bool, p: int): multiset<int> {
    if marked then multiset{} else multiset{p}
  }

  /** The pitches at which a chord switches its unmarked notes on: each under
      the accidentals in force when it is reached. */
  function UnmarkedOn(cfg: Config, bar: Accidentals, notes: seq<Note>): multiset<int>
    decreases |notes|
  {
    if notes == [] then multiset{}
    else Unless(notes[0].accidental.Some?, PitchOf(cfg, notes[0], bar, None))
         + UnmarkedOn(cfg, Marked(bar, notes[0]), notes[1..])
  }

  /** The pitches at which it switches them off: all under the same accidentals. */
  function UnmarkedOff(cfg: Config, bar: Accidentals, notes: seq<Note>): multiset<int>
    decreases |notes|
  {
    if notes == [] then multiset{}
    else Unless(notes[0].accidental.Some?, PitchOf(cfg, notes[0], bar, None))
         + UnmarkedOff(cfg, bar, notes[1..])
  }

  /** A chord is even if its own accidentals leave the pitches of its unmarked
      notes the same, taken together. */
  predicate EvenChord(cfg: Config, bar: Accidentals, notes: seq<Note>) {
    UnmarkedOn(cfg, bar, notes) == UnmarkedOff(cfg, BarAfter(bar, notes), notes)
  }

  function ChordImbalance(cfg: Config, bar: Accidentals, notes: seq<Note>, p: int): int {
    Count(UnmarkedOn(cfg, bar, notes), p) - Count(UnmarkedOff(cfg, BarAfter(bar, notes), notes), p)
  }

  function TupletOns(cfg: Config, bar: Accidentals, es: seq<Element>): multiset<int>
    decreases |es|
  {
    if es == [] then multiset{}
    else match es[0]
      case ANote(n) => TupletOns(cfg, Marked(bar, n), es[1..])
      case AChord(ns, _) => UnmarkedOn(cfg, bar, ns) + TupletOns(cfg, BarAfter(bar, ns), es[1..])
      case _ => TupletOns(cfg, bar, es[1..])
  }

  function TupletOffs(cfg: Config, bar: Accidentals, es: seq<Element>): multiset<int>
    decreases |es|
  {
    if es == [] then multiset{}
    else match es[0]
      case ANote(n) => TupletOffs(cfg, Marked(bar, n), es[1..])
      case AChord(ns, _) => UnmarkedOff(cfg, BarAfter(bar, ns), ns) + TupletOffs(cfg, BarAfter(bar, ns), es[1..])
      case _ => TupletOffs(cfg, bar, es[1..])
  }

  function TupletImbalance(cfg: Config, bar: Accidentals, es: seq<Element>, p: int): int {
    Count(TupletOns(cfg, bar, es), p) - Count(TupletOffs(cfg, bar, es), p)
  }

  function ElementOns(cfg: Config, vs: VoiceState, e: Element): multiset<int> {
    match e
    case AChord(ns, _) => UnmarkedOn(cfg, vs.bar, ns)
    case ATuplet(_, _, es) => TupletOns(cfg, vs.bar, es)
    case _ => multiset{}
  }

  function ElementOffs(cfg: Config, vs: VoiceState, e: Element): multiset<int> {
    match e
    case AChord(ns, _) => UnmarkedOff(cfg, BarAfter(vs.bar, ns), ns)
    case ATuplet(_, _, es) => TupletOffs(cfg, vs.bar, es)
    case _ => multiset{}
  }

  function ElementImbalance(cfg: Config, vs: VoiceState, e: Element, p: int): int {
    Count(ElementOns(cfg, vs, e), p) - Count(ElementOffs(cfg, vs, e), p)
  }

  /** All the unmarked chord notes of a voice, as switched on and as switched off. */
  function VoiceOns(cfg: Config, vs: VoiceState, es: seq<Element>): multiset<int>
    decreases |es|
  {
    if es == [] then multiset{} else ElementOns(cfg, vs, es[0]) + VoiceOns(cfg, Perform(cfg, vs, es[0]).0, es[1..])
  }

  function VoiceOffs(cfg: Config, vs: VoiceState, es: seq<Element>): multiset<int>
    decreases |es|
  {
    if es == [] then multiset{} else ElementOffs(cfg, vs, es[0]) + VoiceOffs(cfg, Perform(cfg, vs, es[0]).0, es[1..])
  }

  function Imbalance(cfg: Config, vs: VoiceState, es: seq<Element>, p: int): int {
    Count(VoiceOns(cfg, vs, es), p) - Count(VoiceOffs(cfg, vs, es), p)
  }

  /** The marked notes of a chord at pitch p: switched on and off alike. */
  function MarkedAt(cfg: Config, notes: seq<Note>, p: int): nat {
    if notes == [] then 0
    else
      (if notes[0].accidental.Some? && PitchOf(cfg, notes[0], map[], None) == p then 1 else 0)
      + MarkedAt(cfg, notes[1..], p)
  }

  lemma {:induction false} MarkedPitch(cfg: Config, n: Note, bar: Accidentals)
    ensures n.accidental.Some? ==> PitchOf(cfg, n, bar, None) == PitchOf(cfg, n, map[], None)
  {
  }

  lemma {:induction false} ChordShapes(cfg: Config, bar: Accidentals, bar': Accidentals, notes: seq<Note>)
    ensures forall i :: 0 <= i < |ChordOn(cfg, bar, notes)| ==> ChordOn(cfg, bar, notes)[i].On?
    ensures forall i :: 0 <= i < |ChordOff(cfg, bar', notes)| ==> ChordOff(cfg, bar', notes)[i].Off?
    decreases |notes|
  {
    if notes != [] {
      ChordShapes(cfg, Marked(bar, notes[0]), bar', notes[1..]);
    }
  }

  /** One more note: as an operation, and as an unmarked or a marked note. */
  lemma {:induction false} NetCons(a: Op, rest: seq<Op>, marked: bool, x: int, m: multiset<int>, p: int)
    ensures Net([a] + rest, p) == Delta(a, p) + Net(rest, p)
    ensures (Unless(marked, x) + m)[p] == m[p] + if !marked && x == p then 1 else 0
  {
    assert ([a] + rest)[1..] == rest;
  }

  lemma {:induction false} ChordOnNet(cfg: Config, bar: Accidentals, notes: seq<Note>, p: int)
    ensures Net(ChordOn(cfg, bar, notes), p) == MarkedAt(cfg, notes, p) + UnmarkedOn(cfg, bar, notes)[p]
    decreases |notes|
  {
    if notes != [] {
      var n, next, rest := notes[0], Marked(bar, notes[0]), notes[1..];
      ChordOnNet(cfg, next, rest, p);
      MarkedPitch(cfg, n, bar);
      var x := PitchOf(cfg, n, bar, None);
      NetCons(On(x), ChordOn(cfg, next, rest), n.accidental.Some?, x, UnmarkedOn(cfg, next, rest), p);
    }
  }

  lemma {:induction false} ChordOffNet(cfg: Config, bar: Accidentals, notes: seq<Note>, p: int)
    ensures Net(ChordOff(cfg, bar, notes), p) == 0 - MarkedAt(cfg, notes, p) - UnmarkedOff(cfg, bar, notes)[p]
    decreases |notes|
  {
    if notes != [] {
      var n, rest := notes[0], notes[1..];
      ChordOffNet(cfg, bar, rest, p);
      MarkedPitch(cfg, n, bar);
      var x := PitchOf(cfg, n, bar, None);
      NetCons(Off(x), ChordOff(cfg, bar, rest), n.accidental.Some?, x, UnmarkedOff(cfg, bar, rest), p);
    }
  }

  lemma {:induction false} GracesBalance(cfg: Config, gs: seq<Note>, each: nat, bar: Accidentals, p: int)
    ensures Net(GraceOps(cfg, gs, each, bar), p) == 0
  {
    if gs != [] {
      var x := PitchOf(cfg, gs[0], bar, None);
      GracesBalance(cfg, gs[1..], each, bar, p);
      NetConcat([On(x), Wait(each), Off(x)], GraceOps(cfg, gs[1..], each, bar), p);
      NetTriple(On(x), Wait(each), Off(x), p);
    }
  }

  lemma {:induction false} NetTriple(a: Op, b: Op, c: Op, p: int)
    ensures Net([a], p) == Delta(a, p)
    ensures Net([a, b], p) == Delta(a, p) + Delta(b, p)
    ensures Net([a, b, c], p) == Delta(a, p) + Delta(b, p) + Delta(c, p)
  {
    NetOne(a, p);
    NetOne(b, p);
    NetOne(c, p);
    NetConcat([a], [b], p);
    NetConcat([a] + [b], [c], p);
    assert [a, b] == [a] + [b] && [a, b, c] == [a] + [b] + [c];
  }

  lemma {:induction false} NetOne(a: Op, p: int)
    ensures Net([a], p) == Delta(a, p)
  {
    assert [a][1..] == [];
  }

  lemma {:induction false} GraceRunBalances(cfg: Config, vs: VoiceState, main: nat, p: int)
    ensures Net(GraceRun(cfg, vs, main), p) == 0
  {
    if vs.grace != [] {
      GracesBalance(cfg, vs.grace, GraceEach(|vs.grace|, main, vs.unit), vs.bar, p);
    }
  }

  lemma {:induction false} ChordNet(cfg: Config, bar: Accidentals, notes: seq<Note>, ticks: nat, p: int)
    ensures Net(ChordOps(cfg, bar, notes, ticks), p) == ChordImbalance(cfg, bar, notes, p)
  {
    var on, off := ChordOn(cfg, bar, notes), ChordOff(cfg, BarAfter(bar, notes), notes);
    NetConcat(on + [Wait(ticks)], off, p);
    NetConcat(on, [Wait(ticks)], p);
    NetTriple(Wait(ticks), Wait(ticks), Wait(ticks), p);
    ChordOnNet(cfg, bar, notes, p);
    ChordOffNet(cfg, BarAfter(bar, notes), notes, p);
  }

  /** A chord switches every pitch off as often as on exactly when it is even. */
  lemma {:induction false} ChordBalancesExactly(cfg: Config, bar: Accidentals, notes: seq<Note>, ticks: nat)
    ensures Balanced(ChordOps(cfg, bar, notes, ticks)) <==> EvenChord(cfg, bar, notes)
  {
    var on, off := UnmarkedOn(cfg, bar, notes), UnmarkedOff(cfg, BarAfter(bar, notes), notes);
    forall p
      ensures Net(ChordOps(cfg, bar, notes, ticks), p) == Count(on, p) - Count(off, p)
    {
      ChordNet(cfg, bar, notes, ticks, p);
    }
    NoNetExactly(ChordOps(cfg, bar, notes, ticks), on, off);
  }

  /** Every pitch is switched off as often as on. */
  ghost predicate Balanced(ops: seq<Op>) {
    forall p :: Net(ops, p) == 0
  }

  /** The net of a list of calls is a difference of counts: it is zero
      everywhere exactly when the two are the same. */
  lemma {:induction false} NoNetExactly(ops: seq<Op>, on: multiset<int>, off: multiset<int>)
    requires forall p :: Net(ops, p) == Count(on, p) - Count(off, p)
    ensures Balanced(ops) <==> on == off
  {
    if on == off {
      forall p
        ensures Net(ops, p) == 0
      {
        assert Net(ops, p) == Count(on, p) - Count(off, p);
      }
    }
    if Balanced(ops) {
      forall p
        ensures Count(on, p) == Count(off, p)
      {
        assert Net(ops, p) == 0;
        assert Net(ops, p) == Count(on, p) - Count(off, p);
      }
      SameCounts(on, off);
    }
  }

  lemma {:induction false} TupletNet(cfg: Config, bar: Accidentals, unit: nat, tp: nat, tq: nat, es: seq<Element>,
                                     p: int)
    ensures Net(PerformTuplet(cfg, bar, unit, tp, tq, es).1, p) == TupletImbalance(cfg, bar, es, p)
    decreases |es|
  {
    if es != [] {
      var (bar1, ops1) := PerformInner(cfg, bar, unit, tp, tq, es[0]);
      TupletNet(cfg, bar1, unit, tp, tq, es[1..], p);
      NetConcat(ops1, PerformTuplet(cfg, bar1, unit, tp, tq, es[1..]).1, p);
      match es[0]
      case ANote(n) =>
        NetTriple(ops1[0], ops1[1], ops1[2], p);
      case ARest(d, _) =>
        NetTriple(ops1[0], ops1[0], ops1[0], p);
      case AChord(ns, d) =>
        ChordNet(cfg, bar, ns, TupletTicks(d, unit, tp, tq), p);
      case _ =>
    }
  }

  lemma {:induction false} NoteNet(cfg: Config, vs: VoiceState, n: Note, p: int)
    ensures var (vs', ops) := PerformNote(cfg, vs, n);
            Net(ops, p) == Holding(vs'.held, p) - Holding(vs.held, p)
  {
    var (vs', ops) := PerformNote(cfg, vs, n);
    var main := ToTicks(n.duration, vs.unit);
    var ticks := SatSub(main, Stolen(|vs.grace|, main, vs.unit));
    var at := (n.pitch, n.octave);
    var x := PitchOf(cfg, n, vs.bar, if at in vs.carry then Some(vs.carry[at]) else None);
    var g := GraceRun(cfg, vs, main);
    GraceRunBalances(cfg, vs, main, p);
    PrincipalNet(vs.held, x, ticks, n.tie, p);
    NetConcat(g, PrincipalOps(vs.held, x, ticks, n.tie), p);
  }

  lemma {:induction false} PrincipalNet(held: map<int, nat>, x: int, ticks: nat, tie: bool, p: int)
    ensures Net(PrincipalOps(held, x, ticks, tie), p) == Holding(HeldAfter(held, x, ticks, tie), p) - Holding(held, p)
  {
    NetTriple(On(x), Wait(ticks), Off(x), p);
    NetTriple(Wait(ticks), Off(x), Off(x), p);
  }

  /** One element: ons less offs is the change in what is held by ties, plus
      what its chords leave behind. */
  lemma {:induction false} ElementNet(cfg: Config, vs: VoiceState, e: Element, p: int)
    ensures var (vs', ops) := Perform(cfg, vs, e);
            Net(ops, p) == Holding(vs'.held, p) - Holding(vs.held, p) + ElementImbalance(cfg, vs, e, p)
  {
    match e
    case ANote(n) => NoteNet(cfg, vs, n, p);
    case AChord(ns, d) =>
      var main := ToTicks(d, vs.unit);
      var ticks := SatSub(main, Stolen(|vs.grace|, main, vs.unit));
      GraceRunBalances(cfg, vs, main, p);
      ChordNet(cfg, vs.bar, ns, ticks, p);
      NetConcat(GraceRun(cfg, vs, main), ChordOps(cfg, vs.bar, ns, ticks), p);
    case ATuplet(tp, tq, es) => TupletNet(cfg, vs.bar, vs.unit, tp, tq, es, p);
    case ARest(_, _) =>
      var w := Perform(cfg, vs, e).1[0];
      NetTriple(w, w, w, p);
    case _ =>
  }

  /** After an element exactly the tied pitches sound, if they did before it,
      exactly when its unmarked chord notes are switched off where they were
      switched on. */
  lemma {:induction false} ElementBalancesExactly(cfg: Config, vs: VoiceState, e: Element)
    ensures (forall p :: ElementLeaves(cfg, vs, e, p) == 0) <==> ElementOns(cfg, vs, e) == ElementOffs(cfg, vs, e)
  {
    forall p
      ensures ElementLeaves(cfg, vs, e, p) == Count(ElementOns(cfg, vs, e), p) - Count(ElementOffs(cfg, vs, e), p)
    {
      ElementNet(cfg, vs, e, p);
    }
    if forall p :: ElementLeaves(cfg, vs, e, p) == 0 {
      forall p
        ensures Count(ElementOns(cfg, vs, e), p) == Count(ElementOffs(cfg, vs, e), p)
      {
        assert ElementLeaves(cfg, vs, e, p) == 0;
      }
      SameCounts(ElementOns(cfg, vs, e), ElementOffs(cfg, vs, e));
    }
  }

  /** What an element's calls leave sounding at p beyond the change in ties. */
  function ElementLeaves(cfg: Config, vs: VoiceState, e: Element, p: int): int {
    Net(Perform(cfg, vs, e).1, p) - Holding(Perform(cfg, vs, e).0.held, p) + Holding(vs.held, p)
  }

  /** The exact law, after any number of elements of any voice: for every
      pitch, ons less offs is 1 if a tie holds it and 0 otherwise, plus what
      the chords left behind. */
  lemma {:induction false} BalanceLaw(cfg: Config, vs: VoiceState, es: seq<Element>, p: int)
    ensures var (vs', ops) := PerformAll(cfg, vs, es);
            Net(ops, p) == Holding(vs'.held, p) - Holding(vs.held, p) + Imbalance(cfg, vs, es, p)
    decreases |es|
  {
    if es != [] {
      var (vs1, ops1) := Perform(cfg, vs, es[0]);
      ElementNet(cfg, vs, es[0], p);
      BalanceLaw(cfg, vs1, es[1..], p);
      NetConcat(ops1, PerformAll(cfg, vs1, es[1..]).1, p);
    }
  }

  lemma {:induction false} FlushNet(order: seq<int>, held: map<int, nat>, p: int)
    requires Lists(order, held)
    ensures Net(Flush(order), p) == -Holding(held, p)
  {
    FlushCount(order, p);
    if p in held {
      var i :| 0 <= i < |order| && order[i] == p;
      OccursOnce(order, p, i);
    }
  }

  function Occurs(order: seq<int>, p: int): nat {
    if order == [] then 0 else (if order[0] == p then 1 else 0) + Occurs(order[1..], p)
  }

  lemma {:induction false} FlushCount(order: seq<int>, p: int)
    ensures Net(Flush(order), p) == 0 - Occurs(order, p)
    ensures p !in order ==> Occurs(order, p) == 0
  {
    if order != [] {
      FlushCount(order[1..], p);
      assert Flush(order)[1..] == Flush(order[1..]);
    }
  }

  lemma {:induction false} OccursOnce(order: seq<int>, p: int, i: nat)
    requires i < |order| && order[i] == p
    requires forall j, k :: 0 <= j < k < |order| ==> order[j] != order[k]
    ensures Occurs(order, p) == 1
  {
    var rest := order[1..];
    if i == 0 {
      assert p !in rest;
      FlushCount(rest, p);
    } else {
      assert rest[i - 1] == p && order[0] != order[i];
      OccursOnce(rest, p, i - 1);
    }
  }

  lemma {:induction false} FlushedNet(cfg: Config, vs: VoiceState, es: seq<Element>, order: seq<int>, p: int)
    requires vs.held == map[]
    requires Lists(order, PerformAll(cfg, vs, es).0.held)
    ensures Net(PerformAll(cfg, vs, es).1 + Flush(order), p) == Imbalance(cfg, vs, es, p)
  {
    var (vs', ops) := PerformAll(cfg, vs, es);
    BalanceLaw(cfg, vs, es, p);
    FlushNet(order, vs'.held, p);
    NetConcat(ops, Flush(order), p);
  }

  /** A whole voice, flushed, ends balanced at every pitch exactly when its
      unmarked chord notes are switched off, all together, at the pitches at
      which they were switched on. */
  lemma {:induction false} VoiceEndsBalanced(cfg: Config, vs: VoiceState, es: seq<Element>, order: seq<int>)
    requires vs.held == map[] && Lists(order, PerformAll(cfg, vs, es).0.held)
    ensures Balanced(PerformAll(cfg, vs, es).1 + Flush(order)) <==> VoiceOns(cfg, vs, es) == VoiceOffs(cfg, vs, es)
  {
    var ops, on, off := PerformAll(cfg, vs, es).1 + Flush(order), VoiceOns(cfg, vs, es), VoiceOffs(cfg, vs, es);
    forall p
      ensures Net(ops, p) == Count(on, p) - Count(off, p)
    {
      FlushedNet(cfg, vs, es, order, p);
    }
    NoNetExactly(ops, on, off);
  }

  // -------------------------------------------- when chords are spelled

  /** The accidental a chord's later notes put on a letter, if any. */
  function LaterMark(notes: seq<Note>, name: NoteName): Option<Accidental> {
    if notes == [] then None
    else
      var later := LaterMark(notes[1..], name);
      if later.Some? then later
      else if notes[0].pitch == name then notes[0].accidental else None
  }

  predicate HeadSpelled(cfg: Config, bar: Accidentals, n: Note, rest: seq<Note>) {
    n.accidental.None? && LaterMark(rest, n.pitch).Some? ==>
      PitchOf(cfg, n, bar, None) == PitchOf(cfg, n.(accidental := LaterMark(rest, n.pitch)), bar, None)
  }

  /** Every unmarked note is either not re-marked later in the chord, or
      re-marked with an accidental that spells the same pitch. */
  predicate Spelled(cfg: Config, bar: Accidentals, notes: seq<Note>)
    decreases |notes|
  {
    notes == [] || (HeadSpelled(cfg, bar, notes[0], notes[1..]) && Spelled(cfg, Marked(bar, notes[0]), notes[1..]))
  }

  lemma {:induction false} BarAfterIs(bar: Accidentals, notes: seq<Note>, name: NoteName)
    ensures var b := BarAfter(bar, notes);
            var later := LaterMark(notes, name);
            if later.Some? then name in b && b[name] == later.value
            else (name in b <==> name in bar) && (name in b ==> b[name] == bar[name])
    decreases |notes|
  {
    if notes != [] {
      BarAfterIs(Marked(bar, notes[0]), notes[1..], name);
    }
  }

  /** The head of a chord: its note-off, resolved at the end, agrees with its
      note-on exactly when it is marked, not re-marked, or re-marked alike. */
  lemma {:induction false} HeadMatches(cfg: Config, bar: Accidentals, n: Note, rest: seq<Note>)
    ensures PitchOf(cfg, n, bar, None) == PitchOf(cfg, n, BarAfter(Marked(bar, n), rest), None)
            <==> HeadSpelled(cfg, bar, n, rest)
  {
    BarAfterIs(Marked(bar, n), rest, n.pitch);
  }

  /** Each note of a chord is switched off at the pitch it was switched on at. */
  predicate Paired(ons: seq<Op>, offs: seq<Op>) {
    |ons| == |offs| && forall i :: 0 <= i < |ons| ==> ons[i].On? && offs[i] == Off(ons[i].pitch)
  }

  lemma {:induction false} PairedCons(p: int, q: int, ons: seq<Op>, offs: seq<Op>)
    ensures Paired([On(p)] + ons, [Off(q)] + offs) <==> p == q && Paired(ons, offs)
  {
    var ons', offs' := [On(p)] + ons, [Off(q)] + offs;
    if Paired(ons', offs') {
      assert ons'[0] == On(p) && offs'[0] == Off(q);
      forall i | 0 <= i < |ons|
        ensures ons[i].On? && offs[i] == Off(ons[i].pitch)
      {
        assert ons'[i + 1] == ons[i] && offs'[i + 1] == offs[i];
      }
    } else if p == q && Paired(ons, offs) {
      forall i | 0 <= i < |ons'|
        ensures ons'[i].On? && offs'[i] == Off(ons'[i].pitch)
      {
        if i > 0 {
          assert ons'[i] == ons[i - 1] && offs'[i] == offs[i - 1];
        }
      }
    }
  }

  /** A chord is switched off as it was switched on exactly when it is spelled consistently. */
  lemma {:induction false} SpelledMatches(cfg: Config, bar: Accidentals, notes: seq<Note>)
    ensures Paired(ChordOn(cfg, bar, notes), ChordOff(cfg, BarAfter(bar, notes), notes)) <==> Spelled(cfg, bar, notes)
    decreases |notes|
  {
    if notes != [] {
      var n, rest := notes[0], notes[1..];
      var final := BarAfter(bar, notes);
      SpelledMatches(cfg, Marked(bar, n), rest);
      HeadMatches(cfg, bar, n, rest);
      PairedCons(PitchOf(cfg, n, bar, None), PitchOf(cfg, n, final, None), ChordOn(cfg, Marked(bar, n), rest),
          ChordOff(cfg, final, rest));
    }
  }

  /** A spelled chord is even; `TradedPitchesBalance` shows the other way fails. */
  lemma {:induction false} SpelledIsEven(cfg: Config, bar: Accidentals, notes: seq<Note>)
    requires Spelled(cfg, bar, notes)
    ensures EvenChord(cfg, bar, notes)
    decreases |notes|
  {
    if notes != [] {
      SpelledIsEven(cfg, Marked(bar, notes[0]), notes[1..]);
      HeadMatches(cfg, bar, notes[0], notes[1..]);
    }
  }

  // ------------------------------------------------------- two chords

  /** A chord that is not even: `[C^C]` switches on C and C sharp, but
      switches off C sharp twice and leaves C sounding. */
  lemma {:induction false} UnevenChordHangs(cfg: Config, d: Ratio)
    requires cfg.offset == 0
    ensures var ns := [Note(C, 0, None, d, false, []), Note(C, 0, Some(Sharp), d, false, [])];
            ChordImbalance(cfg, map[], ns, 60) == 1 && ChordImbalance(cfg, map[], ns, 61) == -1
  {
    var a, b := Note(C, 0, None, d, false, []), Note(C, 0, Some(Sharp), d, false, []);
    var ns := [a, b];
    assert ns[1..] == [b] && [b][1..] == [];
    var bar: Accidentals := map[C := Sharp];
    assert Marked(map[], a) == map[] && Marked(map[], b) == bar;
    var none: Accidentals := map[];
    assert BarAfter(bar, []) == bar && BarAfter(none, [b]) == bar && BarAfter(none, ns) == bar;
    assert PitchOf(cfg, a, none, None) == 60 && PitchOf(cfg, b, none, None) == 61;
    assert PitchOf(cfg, a, bar, None) == 61 && PitchOf(cfg, b, bar, None) == 61;
    assert UnmarkedOn(cfg, none, [b]) == multiset{} && UnmarkedOn(cfg, none, ns) == multiset{60};
    assert UnmarkedOff(cfg, bar, [b]) == multiset{} && UnmarkedOff(cfg, bar, ns) == multiset{61};
  }

  lemma {:induction false} ConsUnmarked(cfg: Config, bar: Accidentals, end: Accidentals, n: Note, rest: seq<Note>)
    requires n.accidental.None?
    ensures UnmarkedOn(cfg, bar, [n] + rest) == Unless(false, PitchOf(cfg, n, bar, None)) + UnmarkedOn(cfg, bar, rest)
    ensures UnmarkedOff(cfg, end, [n] + rest) == Unless(false, PitchOf(cfg, n, end, None)) + UnmarkedOff(cfg, end, rest)
    ensures BarAfter(bar, [n] + rest) == BarAfter(bar, rest)
  {
    assert ([n] + rest)[1..] == rest;
  }

  lemma {:induction false} AllMarked(cfg: Config, bar: Accidentals, end: Accidentals, ns: seq<Note>)
    requires forall i :: 0 <= i < |ns| ==> ns[i].accidental.Some?
    ensures UnmarkedOn(cfg, bar, ns) == multiset{} && UnmarkedOff(cfg, end, ns) == multiset{}
    decreases |ns|
  {
    if ns != [] {
      AllMarked(cfg, Marked(bar, ns[0]), end, ns[1..]);
    }
  }

  /** Two unmarked notes that marked ones make trade pitches. */
  lemma {:induction false} TradeIsEven(cfg: Config, bar: Accidentals, a: Note, b: Note, rest: seq<Note>, p: int, q: int)
    requires a.accidental.None? && b.accidental.None? && forall i :: 0 <= i < |rest| ==> rest[i].accidental.Some?
    requires PitchOf(cfg, a, bar, None) == PitchOf(cfg, b, BarAfter(bar, rest), None) == p
    requires PitchOf(cfg, b, bar, None) == PitchOf(cfg, a, BarAfter(bar, rest), None) == q
    ensures EvenChord(cfg, bar, [a] + ([b] + rest)) && BarAfter(bar, [a] + ([b] + rest)) == BarAfter(bar, rest)
  {
    var end := BarAfter(bar, rest);
    AllMarked(cfg, bar, end, rest);
    ConsUnmarked(cfg, bar, end, b, rest);
    ConsUnmarked(cfg, bar, end, a, [b] + rest);
    assert Unless(false, p) + (Unless(false, q) + multiset{}) == Unless(false, q) + (Unless(false, p) + multiset{});
  }

  /** `[E F =E =F]` under E sharp and F flat: the two letters trade pitches,
      so the chord balances without being spelled. */
  lemma {:induction false} TradedPitchesBalance(cfg: Config, d: Ratio)
    requires cfg.offset == 0
    ensures var bar: Accidentals := map[E := Sharp, F := Flat];
            var ns := [Note(E, 0, None, d, false, []), Note(F, 0, None, d, false, []),
                       Note(E, 0, Some(Natural), d, false, []), Note(F, 0, Some(Natural), d, false, [])];
            EvenChord(cfg, bar, ns) && !Spelled(cfg, bar, ns)
  {
    var bar: Accidentals := map[E := Sharp, F := Flat];
    var end: Accidentals := map[E := Natural, F := Natural];
    var e, f := Note(E, 0, None, d, false, []), Note(F, 0, None, d, false, []);
    var rest := [Note(E, 0, Some(Natural), d, false, []), Note(F, 0, Some(Natural), d, false, [])];
    TwoNaturals(d, bar, rest);
    assert PitchOf(cfg, e, bar, None) == 65 && PitchOf(cfg, f, bar, None) == 64;
    assert PitchOf(cfg, e, end, None) == 64 && PitchOf(cfg, f, end, None) == 65;
    TradeIsEven(cfg, bar, e, f, rest, 65, 64);
    HeadMatches(cfg, bar, e, [f] + rest);
    ConsUnmarked(cfg, bar, end, e, [f] + rest);
    var ns := [e] + ([f] + rest);
    assert ns[1..] == [f] + rest && !Spelled(cfg, bar, ns);
    assert ns == [e, f, Note(E, 0, Some(Natural), d, false, []), Note(F, 0, Some(Natural), d, false, [])];
  }

  lemma {:induction false} TwoNaturals(d: Ratio, bar: Accidentals, ns: seq<Note>)
    requires bar == map[E := Sharp, F := Flat]
    requires ns == [Note(E, 0, Some(Natural), d, false, []), Note(F, 0, Some(Natural), d, false, [])]
    ensures BarAfter(bar, ns) == map[E := Natural, F := Natural]
  {
    var mid: Accidentals := map[E := Natural, F := Flat];
    var none: seq<Note> := [];
    assert Marked(bar, ns[0]) == mid && ns[1..] == [ns[1]] && [ns[1]][1..] == none;
    assert BarAfter(mid, [ns[1]]) == Marked(mid, ns[1]);
  }
}
