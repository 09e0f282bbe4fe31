/** What the expansion sounds, read from left to right: the simple loop as a
    tape that is wound, an ended repeat as a voice that is cut. */
module RepeatSounds {
  import opened Prelude
  import opened AbcAst
  import opened Repeats

  lemma {:induction false} Associate(a: seq<Element>, b: seq<Element>, c: seq<Element>)
    ensures a + (b + c) == a + b + c
  {
  }

  lemma {:induction false} NothingMore(a: seq<Element>)
    ensures a + [] == a
  {
  }

  // --------------------------------------------- the simple loop, as heard

  /** The loop's output with bar lines left out: all of it, and the part since
      the open repeat sign, if one is open. */
  datatype Tape = Tape(out: seq<Element>, section: seq<Element>, open: bool)

  /** What a closing sign copies. */
  function Again(t: Tape): seq<Element> {
    if t.open then t.section else t.out
  }

  function Copies(t: Tape, e: Element): seq<Element> {
    if !e.ABar? then [e] else if e.bar.RepeatEnd? || e.bar.RepeatBoth? then Again(t) else []
  }

  function Wind(t: Tape, e: Element): Tape {
    Tape(t.out + Copies(t, e),
         if e.ABar? && (e.bar.RepeatStart? || e.bar.RepeatEnd? || e.bar.RepeatBoth?) then []
             else t.section + Copies(t, e),
         if e.ABar? && (e.bar.RepeatStart? || e.bar.RepeatBoth?) then true
         else if e.ABar? && e.bar.RepeatEnd? then false else t.open)
  }

  function WindAll(t: Tape, es: seq<Element>): Tape
    decreases |es|
  {
    if es == [] then t else WindAll(Wind(t, es[0]), es[1..])
  }

  const EMPTY := Tape([], [], false)

  ghost predicate Records(x: Expansion, t: Tape) {
    && x.Valid() && Sounding(x.result) == t.out && (x.start.Some? <==> t.open)
    && (t.open ==> Sounding(From(x.result, x.start)) == t.section)
  }

  lemma {:induction false} StepRecords(x: Expansion, t: Tape, e: Element)
    requires Records(x, t)
    ensures Records(ExpandStep(x, e), Wind(t, e))
  {
    StepSounds(x, e);
    SoundingOne(e);
  }

  lemma {:induction false} LoopRecords(x: Expansion, t: Tape, es: seq<Element>)
    requires Records(x, t)
    ensures Records(ExpandFrom(x, es), WindAll(t, es))
    decreases |es|
  {
    if es != [] {
      StepRecords(x, t, es[0]);
      LoopRecords(ExpandStep(x, es[0]), Wind(t, es[0]), es[1..]);
    }
  }

  lemma {:induction false} SimpleSounds(es: seq<Element>)
    ensures Sounding(ExpandSimple(es)) == WindAll(EMPTY, es).out
  {
    LoopRecords(Expansion([], None), EMPTY, es);
  }

  lemma {:induction false} TapeIsKept(t: Tape, es: seq<Element>)
    ensures t.out <= WindAll(t, es).out
    decreases |es|
  {
    if es != [] {
      TapeIsKept(Wind(t, es[0]), es[1..]);
    }
  }

  // ----------------------------------- the cut of an ended repeat, as read

  /** The pieces of an ended repeat as a reader from left to right gets them:
      looking for the first ending, in it, past its bare closing sign, in the
      second ending, past it. */
  datatype Cutting =
    | Seek(pre: seq<Element>, common: seq<Element>)
    | InFirst(pre: seq<Element>, common: seq<Element>, first: seq<Element>)
    | Closed(pre: seq<Element>, common: seq<Element>, first: seq<Element>)
    | InSecond(pre: seq<Element>, common: seq<Element>, first: seq<Element>, second: seq<Element>)
    | Rest(pre: seq<Element>, common: seq<Element>, first: seq<Element>, second: seq<Element>, tail: seq<Element>)

  function Snip(c: Cutting, e: Element): Cutting {
    match c
    case Seek(pre, common) =>
      if FirstEndings.Hit(e) then InFirst(pre, common, [])
      else if RepeatStarts.Hit(e) then Seek(pre + common + [e], [])
      else Seek(pre, common + [e])
    case InFirst(pre, common, first) =>
      if EndingMarkers.Hit(e) then InSecond(pre, common, first, [])
      else if PassEnds.Hit(e) then Closed(pre, common, first)
      else InFirst(pre, common, first + [e])
    case Closed(pre, common, first) => if EndingMarkers.Hit(e) then InSecond(pre, common, first, []) else c
    case InSecond(pre, common, first, second) =>
      if RepeatStarts.Hit(e) then Rest(pre, common, first, second, [e]) else InSecond(pre, common, first, second + [e])
    case Rest(pre, common, first, second, tail) => Rest(pre, common, first, second, tail + [e])
  }

  function CutAll(c: Cutting, es: seq<Element>): Cutting
    decreases |es|
  {
    if es == [] then c else CutAll(Snip(c, es[0]), es[1..])
  }

  function Joined(c: Cutting): Option<seq<Element>> {
    match c
    case InSecond(pre, common, first, second) => Some(Spread(pre, common, first, second, []))
    case Rest(pre, common, first, second, tail) => Some(Spread(pre, common, first, second, tail))
    case _ => None
  }

  /** The same from position i of a list. */
  function CutOn(c: Cutting, es: seq<Element>, i: nat): Cutting
    requires i <= |es|
    decreases |es| - i
  {
    if i == |es| then c else CutOn(Snip(c, es[i]), es, i + 1)
  }

  lemma {:induction false} CutOnIs(c: Cutting, es: seq<Element>, i: nat)
    requires i <= |es|
    ensures CutOn(c, es, i) == CutAll(c, es[i..])
    decreases |es| - i
  {
    if i < |es| {
      assert es[i..][1..] == es[i + 1..] && es[i..][0] == es[i];
      CutOnIs(Snip(c, es[i]), es, i + 1);
    }
  }

  lemma {:induction false} CutRest(c: Cutting, es: seq<Element>, i: nat)
    requires c.Rest? && i <= |es|
    ensures CutOn(c, es, i) == Rest(c.pre, c.common, c.first, c.second, c.tail + es[i..])
    decreases |es| - i
  {
    if i < |es| {
      CutRest(Snip(c, es[i]), es, i + 1);
      assert c.tail + [es[i]] + es[i + 1..] == c.tail + es[i..];
    }
  }

  /** Where the second ending that is being read at i ends. */
  function EndAfter(es: seq<Element>, i: nat): (end: nat)
    requires i <= |es|
    ensures i <= end <= |es|
  {
    var next := Find(es, RepeatStarts, i);
    if next.Some? then next.value else |es|
  }

  lemma {:induction false} CutSecond(c: Cutting, es: seq<Element>, i: nat)
    requires c.InSecond? && i <= |es|
    ensures var c' := CutOn(c, es, i);
            var end := EndAfter(es, i);
            if end == |es| then c' == InSecond(c.pre, c.common, c.first, c.second + es[i..])
            else c' == Rest(c.pre, c.common, c.first, c.second + es[i..end], es[end..])
    decreases |es| - i
  {
    if i < |es| {
      if RepeatStarts.Hit(es[i]) {
        CutRest(Snip(c, es[i]), es, i + 1);
        assert [es[i]] + es[i + 1..] == es[i..] && c.second + es[i..i] == c.second;
      } else {
        CutSecond(Snip(c, es[i]), es, i + 1);
        var end := EndAfter(es, i);
        assert c.second + [es[i]] + es[i + 1..end] == c.second + es[i..end];
        assert c.second + [es[i]] + es[i + 1..] == c.second + es[i..];
      }
    }
  }

  lemma {:induction false} CutClosed(c: Cutting, es: seq<Element>, i: nat)
    requires c.Closed? && i <= |es|
    ensures var m := Find(es, EndingMarkers, i);
            CutOn(c, es, i) == if m.None? then c else CutOn(InSecond(c.pre, c.common, c.first, []), es, m.value + 1)
    decreases |es| - i
  {
    if i < |es| && !EndingMarkers.Hit(es[i]) {
      CutClosed(c, es, i + 1);
    }
  }

  lemma {:induction false} CutFirst(c: Cutting, es: seq<Element>, i: nat)
    requires c.InFirst? && i <= |es|
    ensures var back := Find(es, PassEnds, i);
            if back.None? then CutOn(c, es, i).InFirst?
            else CutOn(c, es, i) == CutOn(Snip(InFirst(c.pre, c.common, c.first + es[i..back.value]), es[back.value]),
                es, back.value + 1)
    decreases |es| - i
  {
    if i < |es| {
      if PassEnds.Hit(es[i]) {
        assert c.first + es[i..i] == c.first;
      } else {
        CutFirst(Snip(c, es[i]), es, i + 1);
        var back := Find(es, PassEnds, i);
        if back.Some? {
          assert c.first + [es[i]] + es[i + 1..back.value] == c.first + es[i..back.value];
        }
      }
    }
  }

  /** Where the common part of a first ending at `fe` starts. */
  function OpenedAt(es: seq<Element>, fe: nat): (cs: nat)
    requires fe <= |es|
    ensures cs <= fe
  {
    var open := FindLast(es, RepeatStarts, fe);
    if open.Some? then open.value + 1 else 0
  }

  /** What a reader looking for the first ending has at i. */
  function SeekAt(es: seq<Element>, i: nat): Cutting
    requires i <= |es|
  {
    Seek(es[..OpenedAt(es, i)], es[OpenedAt(es, i)..i])
  }

  lemma {:induction false} SeekOn(es: seq<Element>, i: nat)
    requires i < |es| && !FirstEndings.Hit(es[i])
    ensures Snip(SeekAt(es, i), es[i]) == SeekAt(es, i + 1)
  {
    var cs := OpenedAt(es, i);
    if RepeatStarts.Hit(es[i]) {
      assert es[..cs] + es[cs..i] + [es[i]] == es[..i + 1] && es[i + 1..i + 1] == [];
    } else {
      assert es[cs..i] + [es[i]] == es[cs..i + 1];
    }
  }

  lemma {:induction false} CutSeek(es: seq<Element>, i: nat)
    requires i <= |es|
    ensures var fe := Find(es, FirstEndings, i);
            if fe.None? then CutOn(SeekAt(es, i), es, i).Seek?
            else CutOn(SeekAt(es, i), es, i) == CutOn(Snip(SeekAt(es, fe.value), es[fe.value]), es, fe.value + 1)
    decreases |es| - i
  {
    if i < |es| && !FirstEndings.Hit(es[i]) {
      SeekOn(es, i);
      CutSeek(es, i + 1);
    }
  }

  /** Reading from left to right cuts where the searches cut. */
  lemma {:induction false} CutIsSearch(es: seq<Element>)
    ensures Joined(CutAll(Seek([], []), es)) == ExpandVariantEndings(es)
  {
    assert es[0..] == es && es[..0] == [] && es[0..0] == [];
    CutOnIs(Seek([], []), es, 0);
    CutSeek(es, 0);
    var fe := Find(es, FirstEndings, 0);
    if fe.Some? {
      var cs := OpenedAt(es, fe.value);
      CutFromFirst(es, cs, fe.value, es[..cs], es[cs..fe.value]);
    }
  }

  lemma {:induction false} CutFromFirst(es: seq<Element>, cs: nat, fe: nat, pre: seq<Element>, common: seq<Element>)
    requires Find(es, FirstEndings, 0) == Some(fe) && cs == OpenedAt(es, fe) && pre == es[..cs] && common == es[cs..fe]
    ensures Joined(CutOn(InFirst(pre, common, []), es, fe + 1)) == ExpandVariantEndings(es)
  {
    CutFirst(InFirst(pre, common, []), es, fe + 1);
    var back := Find(es, PassEnds, fe + 1);
    if back.Some? {
      var first := es[fe + 1..back.value];
      assert [] + first == first;
      CutFromBack(es, cs, fe, back.value, pre, common, first);
    }
  }

  lemma {:induction false} CutFromBack(es: seq<Element>, cs: nat, fe: nat, back: nat, pre: seq<Element>,
                                       common: seq<Element>, first: seq<Element>)
    requires Find(es, FirstEndings, 0) == Some(fe) && cs == OpenedAt(es, fe) && Find(es, PassEnds, fe + 1) == Some(back)
    requires pre == es[..cs] && common == es[cs..fe] && first == es[fe + 1..back]
    ensures Joined(CutOn(Snip(InFirst(pre, common, first), es[back]), es, back + 1)) == ExpandVariantEndings(es)
  {
    if EndingMarkers.Hit(es[back]) {
      CutFromSecond(es, cs, fe, back, back, pre, common, first);
    } else {
      CutClosed(Closed(pre, common, first), es, back + 1);
      var m := Find(es, EndingMarkers, back + 1);
      if m.Some? {
        CutFromSecond(es, cs, fe, back, m.value, pre, common, first);
      } else {
        NoSecond(es, fe, back);
      }
    }
  }

  lemma {:induction false} NoSecond(es: seq<Element>, fe: nat, back: nat)
    requires Find(es, FirstEndings, 0) == Some(fe) && Find(es, PassEnds, fe + 1) == Some(back)
    requires !EndingMarkers.Hit(es[back]) && Find(es, EndingMarkers, back + 1) == None
    ensures ExpandVariantEndings(es) == None
  {
  }

  lemma {:induction false} CutFromSecond(es: seq<Element>, cs: nat, fe: nat, back: nat, se: nat, pre: seq<Element>,
                                         common: seq<Element>, first: seq<Element>)
    requires Find(es, FirstEndings, 0) == Some(fe) && cs == OpenedAt(es, fe) && Find(es, PassEnds, fe + 1) == Some(back)
    requires if EndingMarkers.Hit(es[back]) then se == back else Find(es, EndingMarkers, back + 1) == Some(se)
    requires pre == es[..cs] && common == es[cs..fe] && first == es[fe + 1..back]
    ensures Joined(CutOn(InSecond(pre, common, first, []), es, se + 1)) == ExpandVariantEndings(es)
  {
    var end := EndAfter(es, se + 1);
    SecondIsCut(es, se + 1, pre, common, first);
    CutsAre(es, cs, fe, back, se, end);
    SpreadAt(es, Cuts(cs, fe, back, se, end), pre, common, first, es[se + 1..end], es[end..]);
  }

  lemma {:induction false} SecondIsCut(es: seq<Element>, i: nat, pre: seq<Element>, common: seq<Element>,
                                       first: seq<Element>)
    requires i <= |es|
    ensures Joined(CutOn(InSecond(pre, common, first, []), es, i))
            == Some(Spread(pre, common, first, es[i..EndAfter(es, i)], es[EndAfter(es, i)..]))
  {
    var end := EndAfter(es, i);
    CutSecond(InSecond(pre, common, first, []), es, i);
    assert [] + es[i..end] == es[i..end];
    if end == |es| {
      assert [] + es[i..] == es[i..end] && es[end..] == [];
    }
  }

  lemma {:induction false} CutsAre(es: seq<Element>, cs: nat, fe: nat, back: nat, se: nat, end: nat)
    requires Find(es, FirstEndings, 0) == Some(fe) && cs == OpenedAt(es, fe) && Find(es, PassEnds, fe + 1) == Some(back)
    requires if EndingMarkers.Hit(es[back]) then se == back else Find(es, EndingMarkers, back + 1) == Some(se)
    requires end == EndAfter(es, se + 1)
    ensures FindCuts(es) == Some(Cuts(cs, fe, back, se, end))
  {
  }

  // -------------------------------------------------- the cut, as heard

  /** What the cut has played so far: all but what lies between a bare closing
      sign and the next ending. */
  function CutHeard(c: Cutting): seq<Element> {
    match c
    case Seek(pre, common) => Sounding(pre) + Sounding(common)
    case InFirst(pre, common, first) => FirstPass(pre, common, first)
    case Closed(pre, common, first) => FirstPass(pre, common, first) + Sounding(common)
    case InSecond(pre, common, first, second) => FirstPass(pre, common, first) + Sounding(common) + Sounding(second)
    case Rest(pre, common, first, second, tail) =>
      FirstPass(pre, common, first) + Sounding(common) + Sounding(second) + Sounding(tail)
  }

  function FirstPass(pre: seq<Element>, common: seq<Element>, first: seq<Element>): seq<Element> {
    Sounding(pre) + Sounding(common) + Sounding(first)
  }

  function CutAdds(c: Cutting, e: Element): seq<Element> {
    if !e.ABar? then (if c.Closed? then [] else [e])
    else if c.InFirst? && PassEnds.Hit(e) then Sounding(c.common)
    else []
  }

  lemma {:induction false} OneMore(before: seq<Element>, xs: seq<Element>, e: Element)
    ensures before + Sounding(xs + [e]) == before + Sounding(xs) + if e.ABar? then [] else [e]
  {
    SoundingOne(e);
    SoundingConcat(xs, [e]);
    Associate(before, Sounding(xs), Sounding([e]));
  }

  lemma {:induction false} SeekAdds(pre: seq<Element>, common: seq<Element>, e: Element)
    ensures CutHeard(Snip(Seek(pre, common), e)) == CutHeard(Seek(pre, common)) + CutAdds(Seek(pre, common), e)
  {
    NothingMore(Sounding(pre) + Sounding(common));
    if FirstEndings.Hit(e) {
      NothingMore(Sounding(pre) + Sounding(common));
    } else if RepeatStarts.Hit(e) {
      SoundingConcat(pre, common);
      SoundingConcat(pre + common, [e]);
      SoundingOne(e);
      NothingMore(Sounding(pre + common));
    } else {
      OneMore(Sounding(pre), common, e);
    }
  }

  lemma {:induction false} PastAdds(c: Cutting, e: Element)
    requires c.InSecond? || c.Rest?
    ensures CutHeard(Snip(c, e)) == CutHeard(c) + CutAdds(c, e)
  {
    NothingMore(CutHeard(c));
    SoundingOne(e);
    var before := FirstPass(c.pre, c.common, c.first) + Sounding(c.common);
    if c.InSecond? {
      OneMore(before, c.second, e);
    } else {
      OneMore(before + Sounding(c.second), c.tail, e);
    }
  }

  lemma {:induction false} CutStepAdds(c: Cutting, e: Element)
    ensures CutHeard(Snip(c, e)) == CutHeard(c) + CutAdds(c, e)
  {
    match c
    case Seek(pre, common) => SeekAdds(pre, common, e);
    case InFirst(pre, common, first) =>
      NothingMore(CutHeard(c));
      OneMore(Sounding(pre) + Sounding(common), first, e);
      NothingMore(CutHeard(c) + Sounding(common));
    case Closed(_, _, _) => NothingMore(CutHeard(c));
    case _ => PastAdds(c, e);
  }

  lemma {:induction false} JoinedSounds(c: Cutting)
    requires Joined(c).Some?
    ensures Sounding(Joined(c).value) == CutHeard(c)
  {
    SpreadSounds(c.pre, c.common, c.first, c.second, if c.Rest? then c.tail else []);
    RegroupPasses(Sounding(c.pre), Sounding(c.common), Sounding(c.first), Sounding(c.second));
    NothingMore(FirstPass(c.pre, c.common, c.first) + Sounding(c.common) + Sounding(c.second));
  }

  lemma {:induction false} CutIsKept(c: Cutting, es: seq<Element>)
    ensures CutHeard(c) <= CutHeard(CutAll(c, es))
    decreases |es|
  {
    if es != [] {
      CutStepAdds(c, es[0]);
      CutIsKept(Snip(c, es[0]), es[1..]);
    }
  }
}
