/** Exactly when a voice never switches a pitch off more often than on. */
module NoteSafety {
  import opened Prelude
  import opened AbcAst
  import opened VoiceRender
  import opened NoteBalance

  // ------------------------------------------------------- the condition

  /** Nothing is switched off that does not sound: with the tied pitches and the
      unmarked chord notes switched on so far, every unmarked chord note
      switched off so far is accounted for. */
  ghost predicate Covered(held: map<int, nat>, on: multiset<int>, off: multiset<int>) {
    forall p :: Count(off, p) <= Count(on, p) + Holding(held, p)
  }

  function InnerOns(cfg: Config, bar: Accidentals, e: Element): multiset<int> {
    if e.AChord? then UnmarkedOn(cfg, bar, e.notes) else multiset{}
  }

  function InnerOffs(cfg: Config, bar: Accidentals, e: Element): multiset<int> {
    if e.AChord? then UnmarkedOff(cfg, BarAfter(bar, e.notes), e.notes) else multiset{}
  }

  function InnerBar(bar: Accidentals, e: Element): Accidentals {
    match e
    case ANote(n) => Marked(bar, n)
    case AChord(ns, _) => BarAfter(bar, ns)
    case _ => bar
  }

  /** Covered after every inner element of a tuplet. */
  ghost predicate SafeTuplet(cfg: Config, bar: Accidentals, held: map<int, nat>, on: multiset<int>, off: multiset<int>,
                             es: seq<Element>)
    decreases |es|
  {
    es == [] ||
    var on', off' := on + InnerOns(cfg, bar, es[0]), off + InnerOffs(cfg, bar, es[0]);
    Covered(held, on', off') && SafeTuplet(cfg, InnerBar(bar, es[0]), held, on', off', es[1..])
  }

  /** Covered after an element, and inside a tuplet after every inner one. */
  ghost predicate SafeElement(cfg: Config, vs: VoiceState, on: multiset<int>, off: multiset<int>, e: Element) {
    if e.ATuplet? then SafeTuplet(cfg, vs.bar, vs.held, on, off, e.elements)
    else Covered(Perform(cfg, vs, e).0.held, on + ElementOns(cfg, vs, e), off + ElementOffs(cfg, vs, e))
  }

  /** Covered after every element of a voice. */
  ghost predicate SafeVoice(cfg: Config, vs: VoiceState, on: multiset<int>, off: multiset<int>, es: seq<Element>)
    decreases |es|
  {
    es == [] ||
    (&& SafeElement(cfg, vs, on, off, es[0])
     && SafeVoice(cfg, Perform(cfg, vs, es[0]).0, on + ElementOns(cfg, vs, es[0]), off + ElementOffs(cfg, vs, es[0]),
         es[1..]))
  }

  // ------------------------------------------------- no prefix goes below

  /** Played after `base` (how often each pitch already sounds), no prefix
      switches a pitch off more often than on. */
  ghost predicate Sane(base: int -> int, ops: seq<Op>) {
    forall k, p :: 0 <= k <= |ops| ==> base(p) + Net(ops[..k], p) >= 0
  }

  ghost predicate Positive(base: int -> int) {
    forall p :: base(p) >= 0
  }

  function After(base: int -> int, ops: seq<Op>): int -> int {
    (p: int) => base(p) + Net(ops, p)
  }

  lemma {:induction false} SaneEnds(base: int -> int, ops: seq<Op>)
    requires Sane(base, ops)
    ensures Positive(base) && Positive(After(base, ops))
  {
    assert ops[..0] == [] && ops[..|ops|] == ops;
    forall p
      ensures base(p) >= 0 && After(base, ops)(p) >= 0
    {
      assert base(p) + Net(ops[..0], p) >= 0;
      assert base(p) + Net(ops[..|ops|], p) >= 0;
    }
  }

  lemma {:induction false} SaneFrom(base: int -> int, same: int -> int, ops: seq<Op>)
    requires forall p :: base(p) == same(p)
    ensures Sane(base, ops) <==> Sane(same, ops)
  {
    forall k, p | 0 <= k <= |ops|
      ensures base(p) + Net(ops[..k], p) == same(p) + Net(ops[..k], p)
    {
    }
  }

  lemma {:induction false} PrefixNet(base: int -> int, xs: seq<Op>, ys: seq<Op>, k: nat, p: int)
    requires k <= |ys|
    ensures base(p) + Net((xs + ys)[..|xs| + k], p) == After(base, xs)(p) + Net(ys[..k], p)
  {
    assert (xs + ys)[..|xs| + k] == xs + ys[..k];
    NetConcat(xs, ys[..k], p);
  }

  lemma {:induction false} SaneSplit(base: int -> int, xs: seq<Op>, ys: seq<Op>)
    ensures Sane(base, xs + ys) <==> Sane(base, xs) && Sane(After(base, xs), ys)
  {
    if Sane(base, xs + ys) {
      forall k, p | 0 <= k <= |xs|
        ensures base(p) + Net(xs[..k], p) >= 0
      {
        assert (xs + ys)[..k] == xs[..k];
      }
      forall k, p | 0 <= k <= |ys|
        ensures After(base, xs)(p) + Net(ys[..k], p) >= 0
      {
        PrefixNet(base, xs, ys, k, p);
      }
    }
    if Sane(base, xs) && Sane(After(base, xs), ys) {
      forall k, p | 0 <= k <= |xs + ys|
        ensures base(p) + Net((xs + ys)[..k], p) >= 0
      {
        if k <= |xs| {
          assert (xs + ys)[..k] == xs[..k];
        } else {
          PrefixNet(base, xs, ys, k - |xs|, p);
        }
      }
    }
  }

  lemma {:induction false} NoOffs(ops: seq<Op>, p: int)
    requires forall i :: 0 <= i < |ops| ==> !ops[i].Off?
    ensures Net(ops, p) >= 0
  {
    if ops != [] {
      NoOffs(ops[1..], p);
    }
  }

  lemma {:induction false} OnlyOffs(ops: seq<Op>, k: nat, p: int)
    requires k <= |ops| && forall i :: 0 <= i < |ops| ==> ops[i].Off?
    ensures Net(ops, p) <= Net(ops[..k], p)
  {
    if ops == [] {
    } else if k == 0 {
      OnlyOffs(ops[1..], 0, p);
      assert ops[..0] == [] && ops[1..][..0] == [];
    } else {
      OnlyOffs(ops[1..], k - 1, p);
      assert ops[..k][1..] == ops[1..][..k - 1];
    }
  }

  lemma {:induction false} SaneOns(base: int -> int, ops: seq<Op>)
    requires Positive(base) && forall i :: 0 <= i < |ops| ==> !ops[i].Off?
    ensures Sane(base, ops)
  {
    forall k, p | 0 <= k <= |ops|
      ensures base(p) + Net(ops[..k], p) >= 0
    {
      NoOffs(ops[..k], p);
    }
  }

  /** Switching on and then off dips lowest at the end. */
  lemma {:induction false} DipsAtEnd(base: int -> int, ups: seq<Op>, offs: seq<Op>)
    requires Positive(base)
    requires (forall i :: 0 <= i < |ups| ==> !ups[i].Off?) && forall i :: 0 <= i < |offs| ==> offs[i].Off?
    ensures Sane(base, ups + offs) <==> Positive(After(base, ups + offs))
  {
    SaneOns(base, ups);
    SaneSplit(base, ups, offs);
    if Sane(base, ups + offs) {
      SaneEnds(base, ups + offs);
    }
    if Positive(After(base, ups + offs)) {
      forall k, p | 0 <= k <= |offs|
        ensures After(base, ups)(p) + Net(offs[..k], p) >= 0
      {
        OnlyOffs(offs, k, p);
        NetConcat(ups, offs, p);
        assert After(base, ups + offs)(p) >= 0;
      }
    }
  }

  /** Calls that are sane and leave nothing behind do not matter. */
  lemma {:induction false} SaneAfter(base: int -> int, g: seq<Op>, tail: seq<Op>)
    requires Sane(base, g) && forall p :: Net(g, p) == 0
    ensures Sane(base, g + tail) <==> Sane(base, tail)
  {
    SaneSplit(base, g, tail);
    SaneFrom(After(base, g), base, tail);
  }

  lemma {:induction false} SaneGraces(base: int -> int, cfg: Config, gs: seq<Note>, each: nat, bar: Accidentals)
    requires Positive(base)
    ensures Sane(base, GraceOps(cfg, gs, each, bar))
    decreases |gs|
  {
    if gs == [] {
      SaneOns(base, []);
    } else {
      var x, rest := PitchOf(cfg, gs[0], bar, None), GraceOps(cfg, gs[1..], each, bar);
      SaneTone(base, x, each);
      SaneGraces(base, cfg, gs[1..], each, bar);
      SaneAfter(base, [On(x), Wait(each), Off(x)], rest);
    }
  }

  /** A pitch switched on and off again. */
  lemma {:induction false} SaneTone(base: int -> int, x: int, ticks: nat)
    requires Positive(base)
    ensures var tone := [On(x), Wait(ticks), Off(x)]; Sane(base, tone) && forall p :: Net(tone, p) == 0
  {
    var tone := [On(x), Wait(ticks), Off(x)];
    forall p
      ensures Net(tone, p) == 0
    {
      NetTriple(On(x), Wait(ticks), Off(x), p);
    }
    assert tone == [On(x), Wait(ticks)] + [Off(x)];
    DipsAtEnd(base, [On(x), Wait(ticks)], [Off(x)]);
  }

  lemma {:induction false} SaneGraceRun(base: int -> int, cfg: Config, vs: VoiceState, main: nat, tail: seq<Op>)
    requires Positive(base)
    ensures Sane(base, GraceRun(cfg, vs, main) + tail) <==> Sane(base, tail)
  {
    if vs.grace != [] {
      SaneGraces(base, cfg, vs.grace, GraceEach(|vs.grace|, main, vs.unit), vs.bar);
    } else {
      SaneOns(base, []);
    }
    forall p
      ensures Net(GraceRun(cfg, vs, main), p) == 0
    {
      GraceRunBalances(cfg, vs, main, p);
    }
    SaneAfter(base, GraceRun(cfg, vs, main), tail);
  }

  // ------------------------------------------------ the condition is exact

  /** How often each pitch sounds. */
  function Ringing(held: map<int, nat>, on: multiset<int>, off: multiset<int>): int -> int {
    (p: int) => Holding(held, p) + Count(on, p) - Count(off, p)
  }

  lemma {:induction false} CoveredMeans(held: map<int, nat>, on: multiset<int>, off: multiset<int>)
    ensures Covered(held, on, off) <==> Positive(Ringing(held, on, off))
  {
    if Positive(Ringing(held, on, off)) {
      forall p
        ensures Count(off, p) <= Count(on, p) + Holding(held, p)
      {
        assert Ringing(held, on, off)(p) >= 0;
      }
    }
  }

  /** What rings after calls with a known net effect. */
  lemma {:induction false} RingingAfter(held: map<int, nat>, on: multiset<int>, off: multiset<int>, ops: seq<Op>,
                                        held': map<int, nat>, ons: multiset<int>, offs: multiset<int>)
    requires forall p :: Net(ops, p) == Holding(held', p) - Holding(held, p) + Count(ons, p) - Count(offs, p)
    ensures forall p :: After(Ringing(held, on, off), ops)(p) == Ringing(held', on + ons, off + offs)(p)
    ensures Positive(After(Ringing(held, on, off), ops)) <==> Covered(held', on + ons, off + offs)
  {
    var base, after := Ringing(held, on, off), Ringing(held', on + ons, off + offs);
    forall p
      ensures After(base, ops)(p) == after(p)
    {
      assert Net(ops, p) == Holding(held', p) - Holding(held, p) + Count(ons, p) - Count(offs, p);
    }
    CoveredMeans(held', on + ons, off + offs);
    if Positive(after) {
      forall p
        ensures After(base, ops)(p) >= 0
      {
        assert after(p) >= 0;
      }
    }
    if Positive(After(base, ops)) {
      forall p
        ensures after(p) >= 0
      {
        assert After(base, ops)(p) >= 0;
      }
    }
  }

  lemma {:induction false} ChordDips(base: int -> int, cfg: Config, bar: Accidentals, notes: seq<Note>, ticks: nat)
    requires Positive(base)
    ensures Sane(base, ChordOps(cfg, bar, notes, ticks)) <==> Positive(After(base, ChordOps(cfg, bar, notes, ticks)))
  {
    ChordShapes(cfg, bar, BarAfter(bar, notes), notes);
    DipsAtEnd(base, ChordOn(cfg, bar, notes) + [Wait(ticks)], ChordOff(cfg, BarAfter(bar, notes), notes));
  }

  lemma {:induction false} InnerNet(cfg: Config, bar: Accidentals, unit: nat, tp: nat, tq: nat, e: Element, p: int)
    ensures Net(PerformInner(cfg, bar, unit, tp, tq, e).1, p)
            == Count(InnerOns(cfg, bar, e), p) - Count(InnerOffs(cfg, bar, e), p)
  {
    var ops := PerformInner(cfg, bar, unit, tp, tq, e).1;
    match e
    case AChord(ns, d) => ChordNet(cfg, bar, ns, TupletTicks(d, unit, tp, tq), p);
    case ANote(n) => NetTriple(ops[0], ops[1], ops[2], p);
    case ARest(_, _) => NetOne(ops[0], p);
    case _ =>
  }

  lemma {:induction false} InnerDips(base: int -> int, cfg: Config, bar: Accidentals, unit: nat, tp: nat, tq: nat,
                                     e: Element)
    requires Positive(base)
    ensures var ops := PerformInner(cfg, bar, unit, tp, tq, e).1; Sane(base, ops) <==> Positive(After(base, ops))
  {
    var ops := PerformInner(cfg, bar, unit, tp, tq, e).1;
    match e {
      case AChord(ns, d) => ChordDips(base, cfg, bar, ns, TupletTicks(d, unit, tp, tq));
      case ANote(n) => SaneTone(base, ops[0].pitch, ops[1].ticks);
      case _ => SaneOns(base, ops);
    }
    if Sane(base, ops) {
      SaneEnds(base, ops);
    }
  }

  lemma {:induction false} TupletExactly(cfg: Config, bar: Accidentals, unit: nat, tp: nat, tq: nat,
                                         held: map<int, nat>, on: multiset<int>, off: multiset<int>, es: seq<Element>)
    requires Covered(held, on, off)
    ensures Sane(Ringing(held, on, off), PerformTuplet(cfg, bar, unit, tp, tq, es).1)
            <==> SafeTuplet(cfg, bar, held, on, off, es)
    decreases |es|
  {
    var base := Ringing(held, on, off);
    CoveredMeans(held, on, off);
    if es == [] {
      SaneOns(base, []);
    } else {
      var e := es[0];
      var (bar1, ops1) := PerformInner(cfg, bar, unit, tp, tq, e);
      var ons, offs, ops2 := InnerOns(cfg, bar, e), InnerOffs(cfg, bar, e),
          PerformTuplet(cfg, bar1, unit, tp, tq, es[1..]).1;
      assert bar1 == InnerBar(bar, e);
      forall p
        ensures Net(ops1, p) == Holding(held, p) - Holding(held, p) + Count(ons, p) - Count(offs, p)
      {
        InnerNet(cfg, bar, unit, tp, tq, e, p);
      }
      RingingAfter(held, on, off, ops1, held, ons, offs);
      InnerDips(base, cfg, bar, unit, tp, tq, e);
      SaneSplit(base, ops1, ops2);
      SaneFrom(After(base, ops1), Ringing(held, on + ons, off + offs), ops2);
      if Covered(held, on + ons, off + offs) {
        TupletExactly(cfg, bar1, unit, tp, tq, held, on + ons, off + offs, es[1..]);
      }
    }
  }

  lemma {:induction false} PrincipalDips(base: int -> int, held: map<int, nat>, x: int, ticks: nat, tie: bool)
    requires Positive(base)
    ensures var ops := PrincipalOps(held, x, ticks, tie); Sane(base, ops) <==> Positive(After(base, ops))
  {
    var ops := PrincipalOps(held, x, ticks, tie);
    if x in held && !tie {
      assert ops == [Wait(ticks)] + [Off(x)];
      DipsAtEnd(base, [Wait(ticks)], [Off(x)]);
    } else if tie {
      SaneOns(base, ops);
    } else {
      SaneTone(base, x, ticks);
    }
    if Sane(base, ops) {
      SaneEnds(base, ops);
    }
  }

  /** Graces aside, every element but a tuplet dips lowest at its end. */
  lemma {:induction false} ElementDips(base: int -> int, cfg: Config, vs: VoiceState, e: Element)
    requires Positive(base) && !e.ATuplet?
    ensures var ops := Perform(cfg, vs, e).1; Sane(base, ops) <==> Positive(After(base, ops))
  {
    var ops := Perform(cfg, vs, e).1;
    match e {
      case ANote(n) =>
        var main := ToTicks(n.duration, vs.unit);
        var ticks := SatSub(main, Stolen(|vs.grace|, main, vs.unit));
        var at := (n.pitch, n.octave);
        var x := PitchOf(cfg, n, vs.bar, if at in vs.carry then Some(vs.carry[at]) else None);
        PrincipalDips(base, vs.held, x, ticks, n.tie);
        GracesAside(base, cfg, vs, main, PrincipalOps(vs.held, x, ticks, n.tie));
      case AChord(ns, d) =>
        var main := ToTicks(d, vs.unit);
        var ticks := SatSub(main, Stolen(|vs.grace|, main, vs.unit));
        ChordDips(base, cfg, vs.bar, ns, ticks);
        GracesAside(base, cfg, vs, main, ChordOps(cfg, vs.bar, ns, ticks));
      case _ =>
        SaneOns(base, ops);
        SaneEnds(base, ops);
    }
  }

  lemma {:induction false} GracesAside(base: int -> int, cfg: Config, vs: VoiceState, main: nat, tail: seq<Op>)
    requires Positive(base) && (Sane(base, tail) <==> Positive(After(base, tail)))
    ensures var ops := GraceRun(cfg, vs, main) + tail; Sane(base, ops) <==> Positive(After(base, ops))
  {
    var run := GraceRun(cfg, vs, main);
    SaneGraceRun(base, cfg, vs, main, tail);
    forall p
      ensures After(base, run + tail)(p) == After(base, tail)(p)
    {
      GraceRunBalances(cfg, vs, main, p);
      NetConcat(run, tail, p);
    }
    SamePositive(After(base, run + tail), After(base, tail));
  }

  lemma {:induction false} SamePositive(a: int -> int, b: int -> int)
    requires forall p :: a(p) == b(p)
    ensures Positive(a) <==> Positive(b)
  {
    if Positive(a) {
      forall p
        ensures b(p) >= 0
      {
        assert a(p) >= 0;
      }
    }
    if Positive(b) {
      forall p
        ensures a(p) >= 0
      {
        assert b(p) >= 0;
      }
    }
  }

  lemma {:induction false} ElementExactly(cfg: Config, vs: VoiceState, on: multiset<int>, off: multiset<int>,
                                          e: Element)
    requires Covered(vs.held, on, off)
    ensures Sane(Ringing(vs.held, on, off), Perform(cfg, vs, e).1) <==> SafeElement(cfg, vs, on, off, e)
  {
    var base := Ringing(vs.held, on, off);
    CoveredMeans(vs.held, on, off);
    if e.ATuplet? {
      TupletExactly(cfg, vs.bar, vs.unit, e.p, e.q, vs.held, on, off, e.elements);
    } else {
      ElementDips(base, cfg, vs, e);
      ElementRings(cfg, vs, on, off, e);
    }
  }

  /** What rings after an element. */
  lemma {:induction false} ElementRings(cfg: Config, vs: VoiceState, on: multiset<int>, off: multiset<int>, e: Element)
    ensures var (vs', ops) := Perform(cfg, vs, e);
            var on', off' := on + ElementOns(cfg, vs, e), off + ElementOffs(cfg, vs, e);
            && (forall p :: After(Ringing(vs.held, on, off), ops)(p) == Ringing(vs'.held, on', off')(p))
            && (Positive(After(Ringing(vs.held, on, off), ops)) <==> Covered(vs'.held, on', off'))
  {
    var (vs', ops) := Perform(cfg, vs, e);
    forall p
      ensures Net(ops, p) == Holding(vs'.held, p) - Holding(vs.held, p)
              + Count(ElementOns(cfg, vs, e), p) - Count(ElementOffs(cfg, vs, e), p)
    {
      ElementNet(cfg, vs, e, p);
    }
    RingingAfter(vs.held, on, off, ops, vs'.held, ElementOns(cfg, vs, e), ElementOffs(cfg, vs, e));
  }

  /** Over any elements no prefix switches a pitch off more often than on
      exactly when the condition holds after every one of them. */
  lemma {:induction false} NeverBelowExactly(cfg: Config, vs: VoiceState, on: multiset<int>, off: multiset<int>,
                                             es: seq<Element>)
    requires Covered(vs.held, on, off)
    ensures Sane(Ringing(vs.held, on, off), PerformAll(cfg, vs, es).1) <==> SafeVoice(cfg, vs, on, off, es)
    decreases |es|
  {
    var base := Ringing(vs.held, on, off);
    CoveredMeans(vs.held, on, off);
    if es == [] {
      SaneOns(base, []);
    } else {
      var (vs1, ops1) := Perform(cfg, vs, es[0]);
      var on1, off1, ops2 := on + ElementOns(cfg, vs, es[0]), off
          + ElementOffs(cfg, vs, es[0]), PerformAll(cfg, vs1, es[1..]).1;
      ElementExactly(cfg, vs, on, off, es[0]);
      ElementRings(cfg, vs, on, off, es[0]);
      SaneSplit(base, ops1, ops2);
      SaneFrom(After(base, ops1), Ringing(vs1.held, on1, off1), ops2);
      if Sane(base, ops1) {
        SaneEnds(base, ops1);
        NeverBelowExactly(cfg, vs1, on1, off1, es[1..]);
      }
    }
  }

  // ------------------------------------------------- with the final flush

  lemma {:induction false} FlushIsOffs(order: seq<int>)
    ensures forall i :: 0 <= i < |Flush(order)| ==> Flush(order)[i].Off?
  {
    if order != [] {
      FlushIsOffs(order[1..]);
    }
  }

  /** A whole voice with its flush, played when on less off already sounds: no
      prefix goes below zero exactly when the elements are safe and all the
      notes switched off were switched on. */
  lemma {:induction false} FlushedNeverBelow(cfg: Config, vs: VoiceState, on: multiset<int>, off: multiset<int>,
                                             es: seq<Element>, order: seq<int>)
    requires vs.held == map[] && Lists(order, PerformAll(cfg, vs, es).0.held) && off <= on
    ensures Sane(Ringing(map[], on, off), PerformAll(cfg, vs, es).1 + Flush(order)) <==>
            SafeVoice(cfg, vs, on, off, es) && off + VoiceOffs(cfg, vs, es) <= on + VoiceOns(cfg, vs, es)
  {
    var (vs', ops) := PerformAll(cfg, vs, es);
    var base, on', off' := Ringing(map[], on, off), on + VoiceOns(cfg, vs, es), off + VoiceOffs(cfg, vs, es);
    NothingHeld(on, off);
    NeverBelowExactly(cfg, vs, on, off, es);
    SaneSplit(base, ops, Flush(order));
    if Sane(base, ops) {
      SaneEnds(base, ops);
      FlushIsOffs(order);
      assert [] + Flush(order) == Flush(order);
      DipsAtEnd(After(base, ops), [], Flush(order));
      FlushRings(cfg, vs, on, off, es, order);
    }
  }

  lemma {:induction false} FlushRings(cfg: Config, vs: VoiceState, on: multiset<int>, off: multiset<int>,
                                      es: seq<Element>, order: seq<int>)
    requires vs.held == map[] && Lists(order, PerformAll(cfg, vs, es).0.held)
    ensures Positive(After(After(Ringing(map[], on, off), PerformAll(cfg, vs, es).1), Flush(order))) <==>
            off + VoiceOffs(cfg, vs, es) <= on + VoiceOns(cfg, vs, es)
  {
    var base, ops, on', off' := Ringing(map[], on, off), PerformAll(cfg, vs, es).1, on + VoiceOns(cfg, vs, es), off
        + VoiceOffs(cfg, vs, es);
    forall p
      ensures After(After(base, ops), Flush(order))(p) == Ringing(map[], on', off')(p)
    {
      NetConcat(ops, Flush(order), p);
      FlushedNet(cfg, vs, es, order, p);
    }
    SamePositive(After(After(base, ops), Flush(order)), Ringing(map[], on', off'));
    CoveredMeans(map[], on', off');
    NothingHeld(on', off');
  }

  lemma {:induction false} NothingHeld(on: multiset<int>, off: multiset<int>)
    ensures Covered(map[], on, off) <==> off <= on
  {
    if Covered(map[], on, off) {
      forall p
        ensures off[p] <= on[p]
      {
        assert Count(off, p) <= Count(on, p) + Holding(map[], p);
      }
    }
  }

  // ------------------------------------------------------- even voices

  /** Every chord is even where it stands, also inside tuplets. */
  predicate EvenTuplet(cfg: Config, bar: Accidentals, es: seq<Element>)
    decreases |es|
  {
    es == [] ||
    (&& InnerOns(cfg, bar, es[0]) == InnerOffs(cfg, bar, es[0])
     && EvenTuplet(cfg, InnerBar(bar, es[0]), es[1..]))
  }

  predicate EvenElement(cfg: Config, vs: VoiceState, e: Element) {
    && (e.AChord? ==> EvenChord(cfg, vs.bar, e.notes))
    && (e.ATuplet? ==> EvenTuplet(cfg, vs.bar, e.elements))
  }

  predicate EvenVoice(cfg: Config, vs: VoiceState, es: seq<Element>)
    decreases |es|
  {
    es == [] || (EvenElement(cfg, vs, es[0]) && EvenVoice(cfg, Perform(cfg, vs, es[0]).0, es[1..]))
  }

  lemma {:induction false} EvenTupletIsSafe(cfg: Config, bar: Accidentals, held: map<int, nat>, on: multiset<int>,
                                            off: multiset<int>, es: seq<Element>)
    requires EvenTuplet(cfg, bar, es) && off <= on
    ensures SafeTuplet(cfg, bar, held, on, off, es) && TupletOns(cfg, bar, es) == TupletOffs(cfg, bar, es)
    decreases |es|
  {
    if es != [] {
      var on', off' := on + InnerOns(cfg, bar, es[0]), off + InnerOffs(cfg, bar, es[0]);
      EvenTupletIsSafe(cfg, InnerBar(bar, es[0]), held, on', off', es[1..]);
      CoveredByMore(held, on', off');
    }
  }

  lemma {:induction false} CoveredByMore(held: map<int, nat>, on: multiset<int>, off: multiset<int>)
    requires off <= on
    ensures Covered(held, on, off)
  {
  }

  /** Even chords are safe wherever they stand, and leave nothing behind. */
  lemma {:induction false} EvenVoiceIsSafe(cfg: Config, vs: VoiceState, on: multiset<int>, off: multiset<int>,
                                           es: seq<Element>)
    requires EvenVoice(cfg, vs, es) && off <= on
    ensures SafeVoice(cfg, vs, on, off, es) && VoiceOns(cfg, vs, es) == VoiceOffs(cfg, vs, es)
    decreases |es|
  {
    if es != [] {
      var e := es[0];
      if e.ATuplet? {
        EvenTupletIsSafe(cfg, vs.bar, vs.held, on, off, e.elements);
      }
      var on', off' := on + ElementOns(cfg, vs, e), off + ElementOffs(cfg, vs, e);
      assert ElementOns(cfg, vs, e) == ElementOffs(cfg, vs, e);
      CoveredByMore(Perform(cfg, vs, e).0.held, on', off');
      EvenVoiceIsSafe(cfg, Perform(cfg, vs, e).0, on', off', es[1..]);
    }
  }
}
