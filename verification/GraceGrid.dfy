/** Grace notes and the beat grid: how much a grace run may delay the voice. */
module GraceGrid {
  import opened Prelude
  import opened AbcAst
  import opened VoiceRender

  /** The time a list of writer calls takes. */
  function Dur(ops: seq<Op>): nat {
    if ops == [] then 0 else (if ops[0].Wait? then ops[0].ticks else 0) + Dur(ops[1..])
  }

  lemma {:induction false} DurConcat(xs: seq<Op>, ys: seq<Op>)
    ensures Dur(xs + ys) == Dur(xs) + Dur(ys)
  {
    if xs == [] {
      assert xs + ys == ys;
    } else {
      assert (xs + ys)[1..] == xs[1..] + ys;
      DurConcat(xs[1..], ys);
    }
  }

  lemma {:induction false} DurOne(op: Op)
    ensures Dur([op]) == if op.Wait? then op.ticks else 0
  {
    assert [op][1..] == [];
  }

  lemma {:induction false} DurTriple(a: Op, b: Op, c: Op)
    ensures Dur([a, b]) == Dur([a]) + Dur([b])
    ensures Dur([a, b, c]) == Dur([a]) + Dur([b]) + Dur([c])
  {
    DurConcat([a], [b]);
    DurConcat([a] + [b], [c]);
    assert [a, b] == [a] + [b] && [a, b, c] == [a] + [b] + [c];
  }

  // ------------------------------------------------------- one grace run

  lemma {:induction false} Quotient(total: nat, count: nat)
    requires count > 0
    ensures total / count * count <= total
    ensures total < count ==> total / count == 0
    ensures total >= count ==> total / count >= 1
  {
    var q := total / count;
    assert total == q * count + total % count;
    if q == 0 {
      assert q * count == 0;
    } else {
      assert q * count >= count by {
        assert (q - 1) * count >= 0;
      }
    }
  }

  /** A run steals no more than its principal has, exactly when it has no more
      notes than the principal has ticks. */
  lemma {:induction false} StealsWithinPrincipal(count: nat, main: nat, unit: nat)
    ensures Stolen(count, main, unit) <= main <==> count <= main
  {
    if count > 0 {
      var room := Max(unit / 8, 1) * count;
      assert room >= 0;
      var total: nat := Min(room, main / 2);
      Quotient(total, count);
      if total < count {
        assert GraceEach(count, main, unit) == 1;
      } else {
        assert Stolen(count, main, unit) == total / count * count;
      }
    }
  }

  lemma {:induction false} GraceOpsTake(cfg: Config, gs: seq<Note>, each: nat, bar: Accidentals)
    ensures Dur(GraceOps(cfg, gs, each, bar)) == each * |gs|
  {
    if gs != [] {
      var p := PitchOf(cfg, gs[0], bar, None);
      GraceOpsTake(cfg, gs[1..], each, bar);
      DurConcat([On(p), Wait(each), Off(p)], GraceOps(cfg, gs[1..], each, bar));
      DurTriple(On(p), Wait(each), Off(p));
      DurOne(On(p));
      DurOne(Wait(each));
      DurOne(Off(p));
      assert each * |gs| == each + each * (|gs| - 1);
    }
  }

  lemma {:induction false} GraceRunTakes(cfg: Config, vs: VoiceState, main: nat)
    ensures Dur(GraceRun(cfg, vs, main)) == Stolen(|vs.grace|, main, vs.unit)
  {
    if vs.grace != [] {
      GraceOpsTake(cfg, vs.grace, GraceEach(|vs.grace|, main, vs.unit), vs.bar);
    }
  }

  // ------------------------------------------------------ whole elements

  /** Ticks by which the graces pending before an element push past its end. */
  function Overrun(vs: VoiceState, e: Element): nat {
    match e
    case ANote(n) => var main := ToTicks(n.duration, vs.unit); SatSub(Stolen(|vs.grace|, main, vs.unit), main)
    case AChord(_, d) => var main := ToTicks(d, vs.unit); SatSub(Stolen(|vs.grace|, main, vs.unit), main)
    case _ => 0
  }

  function Overruns(cfg: Config, vs: VoiceState, es: seq<Element>): nat
    decreases |es|
  {
    if es == [] then 0 else Overrun(vs, es[0]) + Overruns(cfg, Perform(cfg, vs, es[0]).0, es[1..])
  }

  /** No principal has fewer ticks than the grace run before it has notes. */
  predicate GracesFit(cfg: Config, vs: VoiceState, es: seq<Element>)
    decreases |es|
  {
    es == [] ||
    (&& (es[0].ANote? ==> |vs.grace| <= ToTicks(es[0].note.duration, vs.unit))
     && (es[0].AChord? ==> |vs.grace| <= ToTicks(es[0].duration, vs.unit))
     && GracesFit(cfg, Perform(cfg, vs, es[0]).0, es[1..]))
  }

  function WithoutGraces(es: seq<Element>): seq<Element> {
    if es == [] then []
    else if es[0].Graces? then WithoutGraces(es[1..])
    else [es[0]] + WithoutGraces(es[1..])
  }

  /** Two voice states that differ only in pending graces and in how long ties have run. */
  ghost predicate SameGrid(vs: VoiceState, plain: VoiceState) {
    && plain.grace == []
    && plain.bar == vs.bar && plain.carry == vs.carry && plain.key == vs.key
    && plain.unit == vs.unit && plain.meter == vs.meter
    && plain.held.Keys == vs.held.Keys
  }

  /** A chord's calls take the chord's ticks. */
  lemma {:induction false} ChordTakes(cfg: Config, bar: Accidentals, notes: seq<Note>, ticks: nat)
    ensures Dur(ChordOps(cfg, bar, notes, ticks)) == ticks
  {
    var on, off := ChordOn(cfg, bar, notes), ChordOff(cfg, BarAfter(bar, notes), notes);
    DurConcat(on + [Wait(ticks)], off);
    DurConcat(on, [Wait(ticks)]);
    DurOne(Wait(ticks));
    ChordOnTakesNothing(cfg, bar, notes);
    ChordOffTakesNothing(cfg, BarAfter(bar, notes), notes);
  }

  lemma {:induction false} ChordOnTakesNothing(cfg: Config, bar: Accidentals, notes: seq<Note>)
    ensures Dur(ChordOn(cfg, bar, notes)) == 0
    decreases |notes|
  {
    if notes != [] {
      ChordOnTakesNothing(cfg, Marked(bar, notes[0]), notes[1..]);
      assert ChordOn(cfg, bar, notes)[1..] == ChordOn(cfg, Marked(bar, notes[0]), notes[1..]);
    }
  }

  lemma {:induction false} ChordOffTakesNothing(cfg: Config, bar: Accidentals, notes: seq<Note>)
    ensures Dur(ChordOff(cfg, bar, notes)) == 0
    decreases |notes|
  {
    if notes != [] {
      ChordOffTakesNothing(cfg, bar, notes[1..]);
      assert ChordOff(cfg, bar, notes)[1..] == ChordOff(cfg, bar, notes[1..]);
    }
  }

  /** A principal note with its graces takes its own ticks, plus the overrun. */
  lemma {:induction false} NoteTakes(cfg: Config, vs: VoiceState, n: Note)
    ensures Dur(PerformNote(cfg, vs, n).1) == ToTicks(n.duration, vs.unit) + Overrun(vs, ANote(n))
  {
    var main := ToTicks(n.duration, vs.unit);
    var ticks := SatSub(main, Stolen(|vs.grace|, main, vs.unit));
    var at := (n.pitch, n.octave);
    var x := PitchOf(cfg, n, vs.bar, if at in vs.carry then Some(vs.carry[at]) else None);
    var g := GraceRun(cfg, vs, main);
    GraceRunTakes(cfg, vs, main);
    PrincipalTakes(vs.held, x, ticks, n.tie);
    DurConcat(g, PrincipalOps(vs.held, x, ticks, n.tie));
  }

  lemma {:induction false} PrincipalTakes(held: map<int, nat>, x: int, ticks: nat, tie: bool)
    ensures Dur(PrincipalOps(held, x, ticks, tie)) == ticks
  {
    DurOne(On(x));
    DurOne(Off(x));
    DurOne(Wait(ticks));
    DurTriple(On(x), Wait(ticks), Off(x));
    DurTriple(Wait(ticks), Off(x), Off(x));
  }

  lemma {:induction false} ChordElementTakes(cfg: Config, vs: VoiceState, ns: seq<Note>, d: Ratio)
    ensures Dur(PerformChord(cfg, vs, ns, d).1) == ToTicks(d, vs.unit) + Overrun(vs, AChord(ns, d))
  {
    var main := ToTicks(d, vs.unit);
    var ticks := SatSub(main, Stolen(|vs.grace|, main, vs.unit));
    GraceRunTakes(cfg, vs, main);
    ChordTakes(cfg, vs.bar, ns, ticks);
    DurConcat(GraceRun(cfg, vs, main), ChordOps(cfg, vs.bar, ns, ticks));
  }

  lemma {:induction false} NoteOnGrid(cfg: Config, vs: VoiceState, plain: VoiceState, n: Note)
    requires SameGrid(vs, plain)
    ensures SameGrid(PerformNote(cfg, vs, n).0, PerformNote(cfg, plain, n).0)
  {
    var at := (n.pitch, n.octave);
    var x := PitchOf(cfg, n, vs.bar, if at in vs.carry then Some(vs.carry[at]) else None);
    assert x in vs.held <==> x in plain.held;
  }

  /** One element with and without its graces: the states stay on the same grid. */
  lemma {:induction false} ElementOnGrid(cfg: Config, vs: VoiceState, plain: VoiceState, e: Element)
    requires SameGrid(vs, plain) && !e.Graces?
    ensures SameGrid(Perform(cfg, vs, e).0, Perform(cfg, plain, e).0)
  {
    match e
    case ANote(n) => NoteOnGrid(cfg, vs, plain, n);
    case AField(kind, value) => assert SameGrid(PerformField(cfg, vs, kind, value),
        PerformField(cfg, plain, kind, value));
    case _ =>
  }

  /** The graced element ends later by exactly the overrun. */
  lemma {:induction false} ElementDelay(cfg: Config, vs: VoiceState, plain: VoiceState, e: Element)
    requires SameGrid(vs, plain) && !e.Graces?
    ensures Dur(Perform(cfg, vs, e).1) == Dur(Perform(cfg, plain, e).1) + Overrun(vs, e)
  {
    if e.ANote? {
      NoteTakes(cfg, vs, e.note);
      NoteTakes(cfg, plain, e.note);
    } else if e.AChord? {
      ChordElementTakes(cfg, vs, e.notes, e.duration);
      ChordElementTakes(cfg, plain, e.notes, e.duration);
    }
  }

  /** The exact law: graces delay the end of any stretch of a voice by exactly
      the sum of the overruns, whatever else the voice contains. */
  lemma {:induction false} GraceDelayLaw(cfg: Config, vs: VoiceState, plain: VoiceState, es: seq<Element>)
    requires SameGrid(vs, plain)
    ensures SameGrid(PerformAll(cfg, vs, es).0, PerformAll(cfg, plain, WithoutGraces(es)).0)
    ensures Dur(PerformAll(cfg, vs, es).1) == Dur(PerformAll(cfg, plain, WithoutGraces(es)).1) + Overruns(cfg, vs, es)
    decreases |es|
  {
    if es != [] {
      var e, rest := es[0], es[1..];
      var (vs1, ops1) := Perform(cfg, vs, e);
      DurConcat(ops1, PerformAll(cfg, vs1, rest).1);
      if e.Graces? {
        GraceDelayLaw(cfg, vs1, plain, rest);
      } else {
        ElementOnGrid(cfg, vs, plain, e);
        ElementDelay(cfg, vs, plain, e);
        var (plain1, ops1') := Perform(cfg, plain, e);
        GraceDelayLaw(cfg, vs1, plain1, rest);
        assert WithoutGraces(es)[1..] == WithoutGraces(rest);
        DurConcat(ops1', PerformAll(cfg, plain1, WithoutGraces(rest)).1);
      }
    }
  }

  lemma {:induction false} FitMeansNoOverrun(cfg: Config, vs: VoiceState, es: seq<Element>)
    ensures Overruns(cfg, vs, es) == 0 <==> GracesFit(cfg, vs, es)
    decreases |es|
  {
    if es != [] {
      FitMeansNoOverrun(cfg, Perform(cfg, vs, es[0]).0, es[1..]);
      if es[0].ANote? {
        StealsWithinPrincipal(|vs.grace|, ToTicks(es[0].note.duration, vs.unit), vs.unit);
      } else if es[0].AChord? {
        StealsWithinPrincipal(|vs.grace|, ToTicks(es[0].duration, vs.unit), vs.unit);
      }
    }
  }

  /** Deleting every grace group leaves the time at the end of a voice as it
      was exactly when every run fits its principal; no deletion ever delays it. */
  lemma {:induction false} GracesKeepTheGrid(cfg: Config, vs: VoiceState, es: seq<Element>)
    requires vs.grace == []
    ensures Dur(PerformAll(cfg, vs, es).1) == Dur(PerformAll(cfg, vs, WithoutGraces(es)).1) <==> GracesFit(cfg, vs, es)
    ensures Dur(PerformAll(cfg, vs, es).1) >= Dur(PerformAll(cfg, vs, WithoutGraces(es)).1)
  {
    GraceDelayLaw(cfg, vs, vs, es);
    FitMeansNoOverrun(cfg, vs, es);
  }

  lemma {:induction false} FitUpTo(cfg: Config, vs: VoiceState, es: seq<Element>, k: nat)
    requires GracesFit(cfg, vs, es) && k <= |es|
    ensures GracesFit(cfg, vs, es[..k])
    decreases |es|
  {
    if k > 0 {
      FitUpTo(cfg, Perform(cfg, vs, es[0]).0, es[1..], k - 1);
      assert es[..k][1..] == es[1..][..k - 1];
    }
  }

  /** The tick at the end of the first k elements, with and without graces. */
  ghost predicate OnTheGrid(cfg: Config, vs: VoiceState, es: seq<Element>, k: nat)
    requires k <= |es|
  {
    Dur(PerformAll(cfg, vs, es[..k]).1) == Dur(PerformAll(cfg, vs, WithoutGraces(es[..k])).1)
  }

  /** The tick at the end of every element is kept exactly when every run fits. */
  lemma {:induction false} EveryElementOnTheGrid(cfg: Config, vs: VoiceState, es: seq<Element>)
    requires vs.grace == []
    ensures (forall k :: 0 <= k <= |es| ==> OnTheGrid(cfg, vs, es, k)) <==> GracesFit(cfg, vs, es)
  {
    assert es[..|es|] == es;
    GracesKeepTheGrid(cfg, vs, es);
    if GracesFit(cfg, vs, es) {
      forall k | 0 <= k <= |es|
        ensures OnTheGrid(cfg, vs, es, k)
      {
        FitUpTo(cfg, vs, es, k);
        GracesKeepTheGrid(cfg, vs, es[..k]);
      }
    } else {
      assert !OnTheGrid(cfg, vs, es, |es|);
    }
  }
}
