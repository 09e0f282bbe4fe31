/** Laws of whole voices, from the elements as written to what is played. */
module Unfolding {
  import opened Prelude
  import opened AbcAst
  import opened VoiceRender
  import opened GraceGrid
  import opened MidiTrack
  import opened Repeats
  import opened RepeatSounds

  // --------------------------------------------------- the second pass

  const OPEN := [ABar(RepeatStart)]
  const CLOSE := [ABar(RepeatEnd)]
  const BAR := [ABar(Single)]
  const START := Expansion([], None)

  /** A stretch that is played twice: what the expansion writes before it, the
      stretch, and what it writes between the two passes. */
  datatype TwoPasses = TwoPasses(head: seq<Element>, body: seq<Element>, mid: seq<Element>)

  /** A closing sign at i, `:|` or `::`, sends the player back over w: to the
      open `|:` or, without one, to the beginning. */
  predicate ClosesAt(es: seq<Element>, i: nat, w: TwoPasses) {
    && i < |es| && es[i].ABar? && (es[i].bar.RepeatEnd? || es[i].bar.RepeatBoth?)
    && var x := ExpandFrom(START, es[..i]);
    w.head + w.body == x.result && w.body == From(x.result, x.start) && w.mid == CLOSE
  }

  /** What a voice plays twice: the common part of its ended repeat, or what
      one of its closing signs sends the player back over. */
  ghost predicate PlaysTwice(es: seq<Element>, w: TwoPasses) {
    match FindCuts(es)
    case Some(c) => w == TwoPasses(es[..c.commonStart], es[c.commonStart..c.fe], BAR + es[c.fe + 1..c.back] + BAR)
    case None => exists i: nat :: ClosesAt(es, i, w)
  }

  lemma {:induction false} ExpandConcat(x: Expansion, xs: seq<Element>, ys: seq<Element>)
    requires x.Valid()
    ensures ExpandFrom(x, xs + ys) == ExpandFrom(ExpandFrom(x, xs), ys)
    decreases |xs|
  {
    if xs == [] {
      assert xs + ys == ys;
    } else {
      assert (xs + ys)[1..] == xs[1..] + ys;
      ExpandConcat(ExpandStep(x, xs[0]), xs[1..], ys);
    }
  }

  lemma {:induction false} ExpandKeeps(x: Expansion, es: seq<Element>)
    requires x.Valid()
    ensures x.result <= ExpandFrom(x, es).result
    decreases |es|
  {
    if es != [] {
      ExpandKeeps(ExpandStep(x, es[0]), es[1..]);
    }
  }

  /** The expansion writes it twice. */
  lemma {:induction false} WrittenTwice(es: seq<Element>, w: TwoPasses) returns (tail: seq<Element>)
    requires PlaysTwice(es, w)
    ensures ExpandRepeats(es) == w.head + w.body + w.mid + w.body + tail
  {
    var cuts := FindCuts(es);
    if cuts.Some? {
      var c := cuts.value;
      var first, second, last := es[c.fe + 1..c.back], es[c.se + 1..c.end], es[c.end..];
      SpreadAt(es, c, w.head, w.body, first, second, last);
      tail := SpreadTwice(w.head, w.body, first, second, last);
    } else {
      var i: nat :| ClosesAt(es, i, w);
      tail := ClosedTwice(es, i, w);
    }
  }

  lemma {:induction false} SpreadTwice(pre: seq<Element>, common: seq<Element>, first: seq<Element>,
                                       second: seq<Element>, last: seq<Element>)
    returns (tail: seq<Element>)
    ensures Spread(pre, common, first, second, last) == pre + common + (BAR + first + BAR) + common + tail
  {
    tail := BAR + second + last;
    var once := pre + common;
    assert once + BAR + first + BAR == once + (BAR + first + BAR);
    assert once + (BAR + first + BAR) + common + BAR + second + last == once + (BAR + first + BAR) + common + tail;
  }

  /** Where the two endings of an ended repeat are entered in the expansion: each
      behind a bar line of its own, so that no accidental reaches it. */
  lemma {:induction false} EndingsEnteredAtBars(cfg: Config, vs: VoiceState, es: seq<Element>, c: Cuts)
    returns (once: seq<Element>, twice: seq<Element>)
    requires FindCuts(es) == Some(c)
    ensures once == es[..c.commonStart] + es[c.commonStart..c.fe] + BAR
    ensures twice == once + es[c.fe + 1..c.back] + BAR + es[c.commonStart..c.fe] + BAR
    ensures ExpandRepeats(es) == twice + es[c.se + 1..c.end] + es[c.end..]
    ensures var v1, v2 := PerformAll(cfg, vs, once).0, PerformAll(cfg, vs, twice).0;
            v1.bar == v1.key && v2.bar == v2.key
  {
    var pre, common, first := es[..c.commonStart], es[c.commonStart..c.fe], es[c.fe + 1..c.back];
    once := pre + common + BAR;
    twice := once + first + BAR + common + BAR;
    SpreadAt(es, c, pre, common, first, es[c.se + 1..c.end], es[c.end..]);
    AfterBar(cfg, vs, once);
    AfterBar(cfg, vs, twice);
  }

  lemma {:induction false} ClosedTwice(es: seq<Element>, i: nat, w: TwoPasses) returns (tail: seq<Element>)
    requires ClosesAt(es, i, w)
    ensures ExpandSimple(es) == w.head + w.body + w.mid + w.body + tail
  {
    var x := ExpandFrom(START, es[..i]);
    var x' := ExpandStep(x, es[i]);
    assert es[..i] + es[i..] == es && es[i..][1..] == es[i + 1..];
    ExpandConcat(START, es[..i], es[i..]);
    ExpandKeeps(x', es[i + 1..]);
    var out, twice := ExpandSimple(es), w.head + w.body + CLOSE + w.body;
    assert twice <= x'.result;
    tail := out[|twice|..];
    assert out == twice + tail;
  }

  /** The repeat sign the loop goes back to is in the output. */
  lemma {:induction false} StartIsSign(x: Expansion, es: seq<Element>)
    requires x.Valid() && (x.start.Some? ==> x.result[x.start.value] == ABar(RepeatStart))
    ensures var y := ExpandFrom(x, es); y.start.Some? ==> y.result[y.start.value] == ABar(RepeatStart)
    decreases |es|
  {
    if es != [] {
      StartIsSign(ExpandStep(x, es[0]), es[1..]);
    }
  }

  predicate EndsInBar(es: seq<Element>) {
    es != [] && es[|es| - 1].ABar?
  }

  lemma {:induction false} EnteredAtSign(es: seq<Element>, i: nat, w: TwoPasses)
    requires ClosesAt(es, i, w)
    ensures (w.head == [] || EndsInBar(w.head)) && EndsInBar(w.mid)
  {
    var x := ExpandFrom(START, es[..i]);
    StartIsSign(START, es[..i]);
    if x.start.Some? {
      assert w.head == x.result[..x.start.value + 1];
    } else {
      assert w.head == [];
    }
  }

  lemma {:induction false} EnteredAtCut(es: seq<Element>, c: Cuts, w: TwoPasses)
    requires FindCuts(es) == Some(c)
    requires w == TwoPasses(es[..c.commonStart], es[c.commonStart..c.fe], BAR + es[c.fe + 1..c.back] + BAR)
    ensures (w.head == [] || EndsInBar(w.head)) && EndsInBar(w.mid)
  {
  }

  /** Both passes are entered at a bar line, or at the start of the voice. */
  lemma {:induction false} EnteredAtBars(es: seq<Element>, w: TwoPasses)
    requires PlaysTwice(es, w)
    ensures (w.head == [] || EndsInBar(w.head)) && EndsInBar(w.mid)
  {
    match FindCuts(es)
    case Some(c) =>
      EnteredAtCut(es, c, w);
    case None =>
      var i: nat :| ClosesAt(es, i, w);
      EnteredAtSign(es, i, w);
  }

  lemma {:induction false} AfterBar(cfg: Config, vs: VoiceState, es: seq<Element>)
    requires EndsInBar(es)
    ensures PerformAll(cfg, vs, es).0.bar == PerformAll(cfg, vs, es).0.key
  {
    var k := |es| - 1;
    var v := PerformAll(cfg, vs, es[..k]).0;
    assert es[..k] + [es[k]] == es && [es[k]][1..] == [];
    StateConcat(cfg, vs, es[..k], [es[k]]);
    assert Perform(cfg, v, es[k]) == (v.(bar := v.key), []);
  }

  /** The state of the voice where the passes are entered. */
  function FirstEntry(cfg: Config, vs: VoiceState, w: TwoPasses): VoiceState {
    PerformAll(cfg, vs, w.head).0
  }

  function SecondEntry(cfg: Config, vs: VoiceState, w: TwoPasses): VoiceState {
    PerformAll(cfg, vs, w.head + w.body + w.mid).0
  }

  /** There the bar's accidentals are the key's: the states differ only in what
      a bar line does not reset. */
  lemma {:induction false} EntriesAlike(cfg: Config, vs: VoiceState, es: seq<Element>, w: TwoPasses)
    requires PlaysTwice(es, w) && vs.bar == vs.key
    ensures var a, b := FirstEntry(cfg, vs, w), SecondEntry(cfg, vs, w);
            a == b <==> a.held == b.held && a.carry == b.carry && a.key == b.key && a.unit == b.unit
                        && a.meter == b.meter && a.grace == b.grace
  {
    EnteredAtBars(es, w);
    if w.head != [] {
      AfterBar(cfg, vs, w.head);
    }
    var all := w.head + w.body + w.mid;
    assert all[|all| - 1] == w.mid[|w.mid| - 1];
    AfterBar(cfg, vs, all);
  }

  /** No ties, no inline fields, no graces. */
  predicate Ordinary(es: seq<Element>) {
    forall i :: 0 <= i < |es| ==> !es[i].AField? && !es[i].Graces? && (es[i].ANote? ==> !es[i].note.tie)
  }

  /** Nothing tied, nothing pending. */
  predicate Settled(vs: VoiceState) {
    vs.held == map[] && vs.carry == map[] && vs.grace == []
  }

  lemma {:induction false} OrdinaryStep(cfg: Config, vs: VoiceState, e: Element)
    requires Settled(vs) && !e.AField? && !e.Graces? && (e.ANote? ==> !e.note.tie)
    ensures var v := Perform(cfg, vs, e).0; Settled(v) && v.key == vs.key && v.unit == vs.unit && v.meter == vs.meter
  {
    var none: map<(NoteName, int), Accidental> := map[];
    assert forall at :: none - {at} == none;
  }

  lemma {:induction false} OrdinaryKeeps(cfg: Config, vs: VoiceState, es: seq<Element>)
    requires Settled(vs) && Ordinary(es)
    ensures var v := PerformAll(cfg, vs, es).0; Settled(v) && v.key == vs.key && v.unit == vs.unit
                                                && v.meter == vs.meter
    decreases |es|
  {
    if es != [] {
      OrdinaryStep(cfg, vs, es[0]);
      OrdinaryKeeps(cfg, Perform(cfg, vs, es[0]).0, es[1..]);
    }
  }

  /** An ordinary stretch entered with nothing tied is in the same state at
      both entries, whatever accidentals it has. */
  lemma {:induction false} OrdinarySectionsQualify(cfg: Config, vs: VoiceState, es: seq<Element>, w: TwoPasses)
    requires PlaysTwice(es, w) && vs.bar == vs.key && Ordinary(w.body + w.mid) && Settled(FirstEntry(cfg, vs, w))
    ensures FirstEntry(cfg, vs, w) == SecondEntry(cfg, vs, w)
  {
    SecondIsKept(cfg, vs, w);
    EntriesAlike(cfg, vs, es, w);
  }

  lemma {:induction false} SecondIsKept(cfg: Config, vs: VoiceState, w: TwoPasses)
    requires Ordinary(w.body + w.mid) && Settled(FirstEntry(cfg, vs, w))
    ensures var a, b := FirstEntry(cfg, vs, w), SecondEntry(cfg, vs, w);
            a.held == b.held && a.carry == b.carry && a.key == b.key && a.unit == b.unit && a.meter == b.meter
                && a.grace == b.grace
  {
    assert w.head + (w.body + w.mid) == w.head + w.body + w.mid;
    StateConcat(cfg, vs, w.head, w.body + w.mid);
    OrdinaryKeeps(cfg, FirstEntry(cfg, vs, w), w.body + w.mid);
  }

  /** The calls up to the first entry, those of the stretch from there, those
      between the passes, and those of the whole voice. */
  function EntryCalls(cfg: Config, vs: VoiceState, w: TwoPasses): seq<Op> {
    PerformAll(cfg, vs, w.head).1
  }

  function SectionCalls(cfg: Config, vs: VoiceState, w: TwoPasses): seq<Op> {
    PerformAll(cfg, FirstEntry(cfg, vs, w), w.body).1
  }

  function MiddleCalls(cfg: Config, vs: VoiceState, w: TwoPasses): seq<Op> {
    PerformAll(cfg, PerformAll(cfg, vs, w.head + w.body).0, w.mid).1
  }

  function VoiceCalls(cfg: Config, vs: VoiceState, es: seq<Element>): seq<Op> {
    PerformAll(cfg, vs, ExpandRepeats(es)).1
  }

  /** The second pass renders the first pass's events later by the length of
      the stretch and of what stands between, whenever the voice is in the
      same state at the two entries. */
  lemma {:induction false} SecondPassIsShifted(cfg: Config, vs: VoiceState, es: seq<Element>, w: TwoPasses,
                                               entry: seq<Op>, section: seq<Op>, middle: seq<Op>, ch: nat, vel: nat,
                                                   tick: nat)
    returns (once: seq<Event>, after: seq<Event>)
    requires PlaysTwice(es, w) && FirstEntry(cfg, vs, w) == SecondEntry(cfg, vs, w)
    requires entry == EntryCalls(cfg, vs, w) && section == SectionCalls(cfg, vs, w) && middle == MiddleCalls(cfg, vs, w)
    ensures once == Played(ch, vel, tick + Dur(entry), section)
    ensures Played(ch, vel, tick, VoiceCalls(cfg, vs, es))
            == Played(ch, vel, tick, entry) + once
               + Played(ch, vel, tick + Dur(entry) + Dur(section), middle)
               + Retarget(once, Dur(section) + Dur(middle), ch) + after
  {
    var last := TwiceCalls(cfg, vs, es, w);
    once, after := TwicePlayed(ch, vel, tick, entry, section, middle, last, VoiceCalls(cfg, vs, es));
  }

  /** Between the passes of a section that a closing sign repeats nothing is called. */
  lemma {:induction false} NothingBetween(cfg: Config, vs: VoiceState, w: TwoPasses)
    requires w.mid == CLOSE
    ensures MiddleCalls(cfg, vs, w) == [] && Dur(MiddleCalls(cfg, vs, w)) == 0
  {
    assert CLOSE[1..] == [];
    var v := PerformAll(cfg, vs, w.head + w.body).0;
    assert Perform(cfg, v, CLOSE[0]) == (v.(bar := v.key), []);
  }

  /** The calls of the expanded voice. */
  lemma {:induction false} TwiceCalls(cfg: Config, vs: VoiceState, es: seq<Element>, w: TwoPasses)
    returns (last: seq<Op>)
    requires PlaysTwice(es, w) && FirstEntry(cfg, vs, w) == SecondEntry(cfg, vs, w)
    ensures VoiceCalls(cfg, vs, es)
            == EntryCalls(cfg, vs, w) + SectionCalls(cfg, vs, w) + MiddleCalls(cfg, vs, w) + SectionCalls(cfg, vs, w)
                + last
  {
    var tail := WrittenTwice(es, w);
    var once := w.head + w.body;
    OpsConcat(cfg, vs, w.head, w.body);
    OpsConcat(cfg, vs, once, w.mid);
    OpsConcat(cfg, vs, once + w.mid, w.body);
    OpsConcat(cfg, vs, once + w.mid + w.body, tail);
    last := PerformAll(cfg, PerformAll(cfg, vs, once + w.mid + w.body).0, tail).1;
  }

  lemma {:induction false} TwicePlayed(ch: nat, vel: nat, tick: nat, entry: seq<Op>, section: seq<Op>, middle: seq<Op>,
                                       last: seq<Op>, all: seq<Op>)
    returns (once: seq<Event>, after: seq<Event>)
    requires all == entry + section + middle + section + last
    ensures once == Played(ch, vel, tick + Dur(entry), section)
    ensures Played(ch, vel, tick, all)
            == Played(ch, vel, tick, entry) + once
               + Played(ch, vel, tick + Dur(entry) + Dur(section), middle)
               + Retarget(once, Dur(section) + Dur(middle), ch) + after
  {
    var late := tick + Dur(entry);
    once := Played(ch, vel, late, section);
    after := Played(ch, vel, tick + Dur(entry + section + middle + section), last);
    PlayedConcat(ch, vel, tick, entry + section + middle + section, last);
    PlayedConcat(ch, vel, tick, entry + section + middle, section);
    PlayedConcat(ch, vel, tick, entry + section, middle);
    PlayedConcat(ch, vel, tick, entry, section);
    DurConcat(entry, section);
    DurConcat(entry + section, middle);
    PlayedElsewhere(ch, ch, vel, late, Dur(section) + Dur(middle), section);
  }

  predicate NoRepeats(es: seq<Element>) {
    forall i :: 0 <= i < |es| ==> !(es[i].ABar?
                                  && (es[i].bar.RepeatStart? || es[i].bar.RepeatEnd? || es[i].bar.RepeatBoth?))
  }

  lemma {:induction false} ExpandPlain(x: Expansion, m: seq<Element>)
    requires x.Valid() && NoRepeats(m)
    ensures ExpandFrom(x, m) == Expansion(x.result + m, x.start)
    decreases |m|
  {
    if m == [] {
      assert x.result + m == x.result;
    } else {
      ExpandPlain(ExpandStep(x, m[0]), m[1..]);
      assert x.result + [m[0]] + m[1..] == x.result + m;
    }
  }

  /** `pre |: body` up to a closing sign, `:|` or `::`, plays the body twice. */
  lemma {:induction false} OpenedSectionPlaysTwice(pre: seq<Element>, body: seq<Element>, close: Bar,
                                                   rest: seq<Element>)
    requires NoRepeats(body) && (close.RepeatEnd? || close.RepeatBoth?)
    requires FindCuts(pre + OPEN + body + [ABar(close)] + rest).None?
    ensures PlaysTwice(pre + OPEN + body + [ABar(close)] + rest, TwoPasses(ExpandSimple(pre) + OPEN, body, CLOSE))
  {
    var es, i := pre + OPEN + body + [ABar(close)] + rest, |pre| + 1 + |body|;
    assert es[i] == ABar(close) && es[..i] == pre + OPEN + body;
    var x1 := ExpandFrom(START, pre);
    var x2 := Expansion(x1.result + OPEN, Some(|x1.result|));
    ExpandConcat(START, pre + OPEN, body);
    ExpandConcat(START, pre, OPEN);
    assert ExpandFrom(x1, OPEN) == x2 by {
      assert OPEN[1..] == [];
    }
    ExpandPlain(x2, body);
    assert ClosesAt(es, i, TwoPasses(x2.result, body, CLOSE));
  }

  /** So does `body :|` or `body ::` at the start of a voice. */
  lemma {:induction false} FirstSectionPlaysTwice(body: seq<Element>, close: Bar, rest: seq<Element>)
    requires NoRepeats(body) && (close.RepeatEnd? || close.RepeatBoth?) && FindCuts(body + [ABar(close)] + rest).None?
    ensures PlaysTwice(body + [ABar(close)] + rest, TwoPasses([], body, CLOSE))
  {
    var es, i := body + [ABar(close)] + rest, |body|;
    assert es[i] == ABar(close) && es[..i] == body && [] + body == body;
    ExpandPlain(START, body);
    assert ClosesAt(es, i, TwoPasses([], body, CLOSE));
  }

  // --------------------------------------------------- deleting graces

  /** A voice as written, its grace groups deleted. Inside a tuplet graces are
      never played, so they can stay. */
  function DropGraces(es: seq<Element>): seq<Element>
    decreases es
  {
    if es == [] then []
    else
      var rest := DropGraces(es[1..]);
      match es[0]
      case Graces(_, _) => rest
      case ASlur(inner) => [ASlur(DropGraces(inner))] + rest
      case e => [e] + rest
  }

  lemma {:induction false} WithoutConcat(xs: seq<Element>, ys: seq<Element>)
    ensures WithoutGraces(xs + ys) == WithoutGraces(xs) + WithoutGraces(ys)
  {
    if xs == [] {
      assert xs + ys == ys;
    } else {
      assert (xs + ys)[1..] == xs[1..] + ys;
      WithoutConcat(xs[1..], ys);
    }
  }

  lemma {:induction false} WithoutOne(e: Element)
    ensures WithoutGraces([e]) == if e.Graces? then [] else [e]
  {
  }

  lemma {:induction false} FlattenDrops(es: seq<Element>)
    ensures FlattenSlurs(DropGraces(es)) == WithoutGraces(FlattenSlurs(es))
    decreases es
  {
    if es != [] {
      var rest := DropGraces(es[1..]);
      FlattenDrops(es[1..]);
      match es[0]
      case Graces(_, _) =>
        assert ([es[0]] + FlattenSlurs(es[1..]))[1..] == FlattenSlurs(es[1..]);
      case ASlur(inner) =>
        FlattenDrops(inner);
        WithoutConcat(FlattenSlurs(inner), FlattenSlurs(es[1..]));
        assert ([ASlur(DropGraces(inner))] + rest)[1..] == rest;
      case e =>
        assert ([e] + rest)[1..] == rest;
        assert ([e] + FlattenSlurs(es[1..]))[1..] == FlattenSlurs(es[1..]);
    }
  }

  // The loop.

  /** The loop's output and the part since its open sign, bar lines and all. */
  datatype Roll = Roll(out: seq<Element>, section: seq<Element>, open: bool)

  function RollOn(r: Roll, e: Element): Roll {
    var again := if r.open then r.section else r.out;
    match e
    case ABar(RepeatStart) => Roll(r.out + [e], [], true)
    case ABar(RepeatEnd) => Roll(r.out + [e] + again, [], false)
    case ABar(RepeatBoth) => Roll(r.out + [ABar(RepeatEnd)] + again + [ABar(RepeatStart)], [], true)
    case _ => Roll(r.out + [e], r.section + [e], r.open)
  }

  function RollAll(r: Roll, es: seq<Element>): Roll
    decreases |es|
  {
    if es == [] then r else RollAll(RollOn(r, es[0]), es[1..])
  }

  ghost predicate Rolls(x: Expansion, r: Roll) {
    && x.Valid() && x.result == r.out && (x.start.Some? <==> r.open)
    && (r.open ==> From(x.result, x.start) == r.section)
  }

  lemma {:induction false} StepRolls(x: Expansion, r: Roll, e: Element)
    requires Rolls(x, r)
    ensures Rolls(ExpandStep(x, e), RollOn(r, e))
  {
  }

  lemma {:induction false} LoopRolls(x: Expansion, r: Roll, es: seq<Element>)
    requires Rolls(x, r)
    ensures Rolls(ExpandFrom(x, es), RollAll(r, es))
    decreases |es|
  {
    if es != [] {
      StepRolls(x, r, es[0]);
      LoopRolls(ExpandStep(x, es[0]), RollOn(r, es[0]), es[1..]);
    }
  }

  function Bare(r: Roll): Roll {
    Roll(WithoutGraces(r.out), WithoutGraces(r.section), r.open)
  }

  lemma {:induction false} BareStep(r: Roll, e: Element)
    ensures Bare(RollOn(r, e)) == if e.Graces? then Bare(r) else RollOn(Bare(r), e)
  {
    var again := if r.open then r.section else r.out;
    if e == ABar(RepeatBoth) {
      BareAgain(r.out, ABar(RepeatEnd), again);
      OneOn(r.out + [ABar(RepeatEnd)] + again, ABar(RepeatStart));
    } else if e == ABar(RepeatEnd) {
      BareAgain(r.out, e, again);
    } else {
      OneOn(r.out, e);
      OneOn(r.section, e);
    }
  }

  lemma {:induction false} BareAgain(out: seq<Element>, e: Element, again: seq<Element>)
    requires e.ABar?
    ensures WithoutGraces(out + [e] + again) == WithoutGraces(out) + [e] + WithoutGraces(again)
  {
    OneOn(out, e);
    WithoutConcat(out + [e], again);
  }

  lemma {:induction false} BareRoll(r: Roll, es: seq<Element>)
    ensures Bare(RollAll(r, es)) == RollAll(Bare(r), WithoutGraces(es))
    decreases |es|
  {
    if es != [] {
      BareStep(r, es[0]);
      BareRoll(RollOn(r, es[0]), es[1..]);
      if !es[0].Graces? {
        assert WithoutGraces(es)[1..] == WithoutGraces(es[1..]);
      }
    }
  }

  lemma {:induction false} LoopDrops(es: seq<Element>)
    ensures ExpandSimple(WithoutGraces(es)) == WithoutGraces(ExpandSimple(es))
  {
    var r := Roll([], [], false);
    LoopRolls(Expansion([], None), r, es);
    LoopRolls(Expansion([], None), r, WithoutGraces(es));
    BareRoll(r, es);
  }

  // The cut.

  function BareCut(c: Cutting): Cutting {
    match c
    case Seek(pre, common) => Seek(WithoutGraces(pre), WithoutGraces(common))
    case InFirst(pre, common, first) => InFirst(WithoutGraces(pre), WithoutGraces(common), WithoutGraces(first))
    case Closed(pre, common, first) => Closed(WithoutGraces(pre), WithoutGraces(common), WithoutGraces(first))
    case InSecond(pre, common, first, second) =>
      InSecond(WithoutGraces(pre), WithoutGraces(common), WithoutGraces(first), WithoutGraces(second))
    case Rest(pre, common, first, second, tail) =>
      Rest(WithoutGraces(pre), WithoutGraces(common), WithoutGraces(first), WithoutGraces(second), WithoutGraces(tail))
  }

  lemma {:induction false} OneOn(xs: seq<Element>, e: Element)
    ensures WithoutGraces(xs + [e]) == if e.Graces? then WithoutGraces(xs) else WithoutGraces(xs) + [e]
  {
    WithoutConcat(xs, [e]);
    WithoutOne(e);
    NothingMore(WithoutGraces(xs));
  }

  lemma {:induction false} BareCutStep(c: Cutting, e: Element)
    ensures BareCut(Snip(c, e)) == if e.Graces? then BareCut(c) else Snip(BareCut(c), e)
  {
    match c
    case Seek(pre, common) => BareSeekStep(pre, common, e);
    case InFirst(pre, common, first) => BareFirstStep(pre, common, first, e);
    case Closed(_, _, _) =>
    case InSecond(pre, common, first, second) => BareSecondStep(pre, common, first, second, e);
    case Rest(_, _, _, _, tail) => OneOn(tail, e);
  }

  lemma {:induction false} BareFirstStep(pre: seq<Element>, common: seq<Element>, first: seq<Element>, e: Element)
    ensures var c := InFirst(pre, common, first);
            BareCut(Snip(c, e)) == if e.Graces? then BareCut(c) else Snip(BareCut(c), e)
  {
    OneOn(first, e);
  }

  lemma {:induction false} BareSecondStep(pre: seq<Element>, common: seq<Element>, first: seq<Element>,
                                          second: seq<Element>, e: Element)
    ensures var c := InSecond(pre, common, first, second);
            BareCut(Snip(c, e)) == if e.Graces? then BareCut(c) else Snip(BareCut(c), e)
  {
    OneOn(second, e);
    WithoutOne(e);
  }

  lemma {:induction false} BareSeekStep(pre: seq<Element>, common: seq<Element>, e: Element)
    ensures var c := Seek(pre, common);
            BareCut(Snip(c, e)) == if e.Graces? then BareCut(c) else Snip(BareCut(c), e)
  {
    if RepeatStarts.Hit(e) {
      OneOn(pre + common, e);
      WithoutConcat(pre, common);
    } else {
      OneOn(common, e);
    }
  }

  lemma {:induction false} BareCutAll(c: Cutting, es: seq<Element>)
    ensures BareCut(CutAll(c, es)) == CutAll(BareCut(c), WithoutGraces(es))
    decreases |es|
  {
    if es != [] {
      BareCutStep(c, es[0]);
      BareCutAll(Snip(c, es[0]), es[1..]);
      if !es[0].Graces? {
        assert WithoutGraces(es)[1..] == WithoutGraces(es[1..]);
      }
    }
  }

  lemma {:induction false} BarePass(out: seq<Element>, common: seq<Element>, ending: seq<Element>)
    ensures WithoutGraces(Pass(out, common, ending))
            == Pass(WithoutGraces(out), WithoutGraces(common), WithoutGraces(ending))
  {
    WithoutConcat(out + common + [ABar(Single)], ending);
    OneOn(out + common, ABar(Single));
    WithoutConcat(out, common);
  }

  lemma {:induction false} BareSpread(pre: seq<Element>, common: seq<Element>, first: seq<Element>,
                                      second: seq<Element>, tail: seq<Element>)
    ensures WithoutGraces(Spread(pre, common, first, second, tail))
            == Spread(WithoutGraces(pre), WithoutGraces(common), WithoutGraces(first), WithoutGraces(second),
                WithoutGraces(tail))
  {
    var one := Pass(pre, common, first);
    BarePass(pre, common, first);
    OneOn(one, ABar(Single));
    BarePass(one + [ABar(Single)], common, second);
    WithoutConcat(Pass(one + [ABar(Single)], common, second), tail);
  }

  lemma {:induction false} BareJoined(c: Cutting)
    ensures Joined(c).None? ==> Joined(BareCut(c)).None?
    ensures Joined(c).Some? ==> Joined(BareCut(c)) == Some(WithoutGraces(Joined(c).value))
  {
    match c
    case InSecond(pre, common, first, second) => BareSpread(pre, common, first, second, []);
    case Rest(pre, common, first, second, tail) => BareSpread(pre, common, first, second, tail);
    case _ =>
  }

  /** Expanding a voice without its graces is expanding it and dropping them. */
  lemma {:induction false} ExpansionDrops(es: seq<Element>)
    ensures ExpandRepeats(WithoutGraces(es)) == WithoutGraces(ExpandRepeats(es))
  {
    var c := Seek([], []);
    CutIsSearch(es);
    CutIsSearch(WithoutGraces(es));
    BareCutAll(c, es);
    assert BareCut(c) == c;
    BareJoined(CutAll(c, es));
    LoopDrops(es);
  }

  /** Deleting every grace group from a voice as written leaves the time at its
      end as it was exactly when every run fits its principal. */
  lemma {:induction false} VoiceKeepsTheGrid(cfg: Config, vs: VoiceState, es: seq<Element>)
    requires vs.grace == []
    ensures var played, bare := ExpandRepeats(FlattenSlurs(es)), ExpandRepeats(FlattenSlurs(DropGraces(es)));
            && bare == WithoutGraces(played)
            && (Dur(PerformAll(cfg, vs, played).1) == Dur(PerformAll(cfg, vs, bare).1) <==> GracesFit(cfg, vs, played))
            && ((forall k :: 0 <= k <= |played| ==> OnTheGrid(cfg, vs, played, k)) <==> GracesFit(cfg, vs, played))
  {
    FlattenDrops(es);
    ExpansionDrops(FlattenSlurs(es));
    var played := ExpandRepeats(FlattenSlurs(es));
    GracesKeepTheGrid(cfg, vs, played);
    EveryElementOnTheGrid(cfg, vs, played);
  }
}
