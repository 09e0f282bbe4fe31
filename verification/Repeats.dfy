/** From a voice's elements to the linear stream that is rendered: slur
    brackets removed, repeats and variant endings expanded. */
module Repeats {
  import opened Prelude
  import opened AbcAst

  // -------------------------------------------------------------- slurs

  function FlattenSlurs(es: seq<Element>): seq<Element>
    decreases es
  {
    if es == [] then []
    else if es[0].ASlur? then FlattenSlurs(es[0].inner) + FlattenSlurs(es[1..])
    else [es[0]] + FlattenSlurs(es[1..])
  }

  /** Slur brackets removed at every depth. */
  function StripSlurs(es: seq<Element>): seq<Element>
    decreases es
  {
    if es == [] then []
    else
      var rest := StripSlurs(es[1..]);
      match es[0]
      case ASlur(inner) => StripSlurs(inner) + rest
      case ATuplet(p, q, inner) => [ATuplet(p, q, StripSlurs(inner))] + rest
      case e => [e] + rest
  }

  predicate NoSlurs(es: seq<Element>)
    decreases es
  {
    es == [] || (!es[0].ASlur? && (es[0].ATuplet? ==> NoSlurs(es[0].elements)) && NoSlurs(es[1..]))
  }

  /** No tuplet, however deep in slurs, contains a slur. */
  predicate NoSlurInTuplets(es: seq<Element>)
    decreases es
  {
    es == [] ||
    (&& (es[0].ASlur? ==> NoSlurInTuplets(es[0].inner))
     && (es[0].ATuplet? ==> NoSlurs(es[0].elements))
     && NoSlurInTuplets(es[1..]))
  }

  lemma {:induction false} NoSlursConcat(xs: seq<Element>, ys: seq<Element>)
    ensures NoSlurs(xs + ys) <==> NoSlurs(xs) && NoSlurs(ys)
  {
    if xs == [] {
      assert xs + ys == ys;
    } else {
      assert (xs + ys)[1..] == xs[1..] + ys;
      NoSlursConcat(xs[1..], ys);
    }
  }

  lemma {:induction false} StripRemovesAll(es: seq<Element>)
    ensures NoSlurs(StripSlurs(es))
    ensures NoSlurs(es) ==> StripSlurs(es) == es
    decreases es
  {
    if es != [] {
      StripRemovesAll(es[1..]);
      match es[0]
      case ASlur(inner) =>
        StripRemovesAll(inner);
        NoSlursConcat(StripSlurs(inner), StripSlurs(es[1..]));
      case ATuplet(p, q, inner) =>
        StripRemovesAll(inner);
        var t := [ATuplet(p, q, StripSlurs(inner))];
        assert (t + StripSlurs(es[1..]))[1..] == StripSlurs(es[1..]);
      case e =>
        assert ([e] + StripSlurs(es[1..]))[1..] == StripSlurs(es[1..]);
    }
  }

  lemma {:induction false} FlattenAndStripAlign(es: seq<Element>)
    ensures |FlattenSlurs(es)| == |StripSlurs(es)|
    decreases es
  {
    if es != [] {
      FlattenAndStripAlign(es[1..]);
      if es[0].ASlur? {
        FlattenAndStripAlign(es[0].inner);
      }
    }
  }

  /** Flattening hears every slurred note exactly when no slur sits in a tuplet. */
  lemma {:induction false} FlattenIsStrip(es: seq<Element>)
    ensures FlattenSlurs(es) == StripSlurs(es) <==> NoSlurInTuplets(es)
    decreases es
  {
    if es != [] {
      var f, s := FlattenSlurs(es[1..]), StripSlurs(es[1..]);
      FlattenIsStrip(es[1..]);
      match es[0]
      case ASlur(inner) =>
        FlattenIsStrip(inner);
        FlattenAndStripAlign(inner);
        var a, b := FlattenSlurs(inner), StripSlurs(inner);
        assert a + f == b + s <==> a == b && f == s by {
          if a + f == b + s {
            assert a == (a + f)[..|a|] && b == (b + s)[..|b|] && f == (a + f)[|a|..] && s == (b + s)[|b|..];
          }
        }
      case ATuplet(p, q, inner) =>
        StripRemovesAll(inner);
        var a, b := es[0], ATuplet(p, q, StripSlurs(inner));
        assert [a] + f == [b] + s <==> a == b && f == s by {
          if [a] + f == [b] + s {
            assert a == ([a] + f)[0] && b == ([b] + s)[0] && f == ([a] + f)[1..] && s == ([b] + s)[1..];
          }
        }
      case e =>
        assert [e] + f == [e] + s <==> f == s by {
          if [e] + f == [e] + s {
            assert f == ([e] + f)[1..] && s == ([e] + s)[1..];
          }
        }
    }
  }

  /** As with a slur in a triplet: its bracket stays, and the voice loops skip it. */
  lemma {:induction false} SlurInTripletStays(e: Element)
    requires !e.ASlur? && !e.ATuplet?
    ensures var es := [ATuplet(3, 2, [ASlur([e])])];
            FlattenSlurs(es) == es && StripSlurs(es) == [ATuplet(3, 2, [e])]
  {
    var slur := ASlur([e]);
    assert [e][1..] == [] && [slur][1..] == [] && [ATuplet(3, 2, [slur])][1..] == [];
    assert StripSlurs([e]) == [e] && StripSlurs([slur]) == [e];
  }

  // ----------------------------------------------------- simple repeats

  function From(result: seq<Element>, start: Option<nat>): seq<Element>
    requires start.Some? ==> start.value < |result|
  {
    if start.Some? then result[start.value + 1..] else result
  }

  /** The expansion loop's state: the output so far and where a repeat opened. */
  datatype Expansion = Expansion(result: seq<Element>, start: Option<nat>)
  {
    predicate Valid() {
      start.Some? ==> start.value < |result|
    }
  }

  function ExpandStep(x: Expansion, e: Element): (x': Expansion)
    requires x.Valid()
    ensures x'.Valid()
  {
    match e
    case ABar(RepeatStart) => Expansion(x.result + [e], Some(|x.result|))
    case ABar(RepeatEnd) => Expansion(x.result + [e] + From(x.result, x.start), None)
    case ABar(RepeatBoth) =>
      var out := x.result + [ABar(RepeatEnd)] + From(x.result, x.start);
      Expansion(out + [ABar(RepeatStart)], Some(|out|))
    case _ => Expansion(x.result + [e], x.start)
  }

  function ExpandFrom(x: Expansion, es: seq<Element>): (x': Expansion)
    requires x.Valid()
    ensures x'.Valid()
    decreases |es|
  {
    if es == [] then x else ExpandFrom(ExpandStep(x, es[0]), es[1..])
  }

  function ExpandSimple(es: seq<Element>): seq<Element> {
    ExpandFrom(Expansion([], None), es).result
  }

  /** The loop as the program runs it: one growing vector, copied from by index. */
  method ExpandLoop(es: seq<Element>) returns (result: seq<Element>)
    ensures result == ExpandSimple(es)
  {
    result := [];
    var start: Option<nat> := None;
    for i := 0 to |es|
      invariant start.Some? ==> start.value < |result|
      invariant ExpandFrom(Expansion(result, start), es[i..]).result == ExpandSimple(es)
    {
      ghost var x := Expansion(result, start);
      var e := es[i];
      assert es[i..][1..] == es[i + 1..];
      match e
      case ABar(RepeatStart) =>
        start := Some(|result|);
        result := result + [e];
      case ABar(RepeatEnd) =>
        result := result + [e];
        var copyStart := if start.Some? then start.value + 1 else 0;
        var copy := result[copyStart..|result| - 1];
        assert copy == From(x.result, x.start);
        result := result + copy;
        start := None;
      case ABar(RepeatBoth) =>
        result := result + [ABar(RepeatEnd)];
        var copyStart := if start.Some? then start.value + 1 else 0;
        var copy := result[copyStart..|result| - 1];
        assert copy == From(x.result, x.start);
        result := result + copy;
        start := Some(|result|);
        result := result + [ABar(RepeatStart)];
      case _ =>
        result := result + [e];
      assert Expansion(result, start) == ExpandStep(x, e);
    }
    assert es[|es|..] == [];
  }

  /** What is left when bar lines are ignored. */
  function Sounding(es: seq<Element>): seq<Element> {
    if es == [] then []
    else if es[0].ABar? then Sounding(es[1..])
    else [es[0]] + Sounding(es[1..])
  }

  lemma {:induction false} SoundingConcat(xs: seq<Element>, ys: seq<Element>)
    ensures Sounding(xs + ys) == Sounding(xs) + Sounding(ys)
  {
    if xs == [] {
      assert xs + ys == ys;
    } else {
      assert (xs + ys)[1..] == xs[1..] + ys;
      SoundingConcat(xs[1..], ys);
    }
  }

  lemma {:induction false} SoundingOne(e: Element)
    ensures Sounding([e]) == if e.ABar? then [] else [e]
  {
  }

  /** What one step adds to the sounding output. */
  lemma {:induction false} StepSounds(x: Expansion, e: Element)
    requires x.Valid()
    ensures Sounding(ExpandStep(x, e).result) == Sounding(x.result) +
              (if e == ABar(RepeatEnd) || e == ABar(RepeatBoth) then Sounding(From(x.result, x.start))
                  else Sounding([e]))
    ensures ExpandStep(x, e).start.Some? ==>
              Sounding(From(ExpandStep(x, e).result, ExpandStep(x, e).start)) ==
                if e == ABar(RepeatStart) || e == ABar(RepeatBoth) then []
                else Sounding(From(x.result, x.start)) + Sounding([e])
  {
    StepResultSounds(x, e);
    if ExpandStep(x, e).start.Some? {
      StepSectionSounds(x, e);
    }
  }

  lemma {:induction false} StepResultSounds(x: Expansion, e: Element)
    requires x.Valid()
    ensures Sounding(ExpandStep(x, e).result) == Sounding(x.result) +
              (if e == ABar(RepeatEnd) || e == ABar(RepeatBoth) then Sounding(From(x.result, x.start))
                  else Sounding([e]))
  {
    SoundingConcat(x.result, [e]);
    if e == ABar(RepeatEnd) || e == ABar(RepeatBoth) {
      var end := [ABar(RepeatEnd)];
      SoundingOne(end[0]);
      SoundingOne(ABar(RepeatStart));
      SoundingConcat(x.result, end);
      SoundingConcat(x.result + end, From(x.result, x.start));
      SoundingConcat(x.result + end + From(x.result, x.start), [ABar(RepeatStart)]);
      assert Sounding(x.result) + [] == Sounding(x.result);
    }
  }

  lemma {:induction false} StepSectionSounds(x: Expansion, e: Element)
    requires x.Valid() && ExpandStep(x, e).start.Some?
    ensures Sounding(From(ExpandStep(x, e).result, ExpandStep(x, e).start)) ==
              if e == ABar(RepeatStart) || e == ABar(RepeatBoth) then []
              else Sounding(From(x.result, x.start)) + Sounding([e])
  {
    var x' := ExpandStep(x, e);
    if e == ABar(RepeatStart) || e == ABar(RepeatBoth) {
      assert From(x'.result, x'.start) == [];
    } else {
      assert From(x'.result, x'.start) == From(x.result, x.start) + [e];
      SoundingConcat(From(x.result, x.start), [e]);
    }
  }

  // ---------------------------------------------------- variant endings

  /** What the searches look for. */
  datatype Target = FirstEndings | RepeatStarts | EndingMarkers | PassEnds
  {
    predicate Hit(e: Element) {
      match this
      case FirstEndings => e == ABar(FirstEnding)
      case RepeatStarts => e == ABar(RepeatStart)
      case EndingMarkers => e.ABar? && (e.bar.SecondEnding? || e.bar.NthEnding?)
      case PassEnds => e == ABar(RepeatEnd) || (e.ABar? && (e.bar.SecondEnding? || e.bar.NthEnding?))
    }
  }

  /** The first index at or after `from` whose element satisfies `f`. */
  function Find(es: seq<Element>, f: Target, from: nat): (r: Option<nat>)
    requires from <= |es|
    ensures r.Some? ==> from <= r.value < |es| && f.Hit(es[r.value])
    decreases |es| - from
  {
    if from == |es| then None else if f.Hit(es[from]) then Some(from) else Find(es, f, from + 1)
  }

  /** The last index below `upTo` whose element satisfies `f`. */
  function FindLast(es: seq<Element>, f: Target, upTo: nat): (r: Option<nat>)
    requires upTo <= |es|
    ensures r.Some? ==> r.value < upTo && f.Hit(es[r.value])
  {
    if upTo == 0 then None else if f.Hit(es[upTo - 1]) then Some(upTo - 1) else FindLast(es, f, upTo - 1)
  }

  /** The cut points of an ended repeat: where the common part starts, the
      first ending, the end of the first pass, the second ending, its end. */
  datatype Cuts = Cuts(commonStart: nat, fe: nat, back: nat, se: nat, end: nat)

  function FindCuts(es: seq<Element>): (r: Option<Cuts>)
    ensures r.Some? ==> r.value.commonStart <= r.value.fe < r.value.back <= r.value.se < r.value.end <= |es|
  {
    var first := Find(es, FirstEndings, 0);
    if first.None? then None
    else
      var fe := first.value;
      var open := FindLast(es, RepeatStarts, fe);
      var pass := Find(es, PassEnds, fe + 1);
      if pass.None? then None
      else
        var back := pass.value;
        var second := if EndingMarkers.Hit(es[back]) then Some(back) else Find(es, EndingMarkers, back + 1);
        if second.None? then None
        else
          var se := second.value;
          var next := Find(es, RepeatStarts, se + 1);
          Some(Cuts(if open.Some? then open.value + 1 else 0, fe, back, se, if next.Some? then next.value else |es|))
  }

  /** One pass appended to the output: the common part, a bar, an ending. */
  function Pass(out: seq<Element>, common: seq<Element>, ending: seq<Element>): seq<Element> {
    out + common + [ABar(Single)] + ending
  }

  function Spread(pre: seq<Element>, common: seq<Element>, first: seq<Element>, second: seq<Element>,
                  tail: seq<Element>): seq<Element> {
    Pass(Pass(pre, common, first) + [ABar(Single)], common, second) + tail
  }

  function ExpandVariantEndings(es: seq<Element>): Option<seq<Element>> {
    match FindCuts(es)
    case None => None
    case Some(c) => Some(Spread(es[..c.commonStart], es[c.commonStart..c.fe], es[c.fe + 1..c.back],
        es[c.se + 1..c.end], es[c.end..]))
  }

  function ExpandRepeats(es: seq<Element>): seq<Element> {
    var v := ExpandVariantEndings(es);
    if v.Some? then v.value else ExpandSimple(es)
  }

  lemma {:induction false} SpreadAt(es: seq<Element>, c: Cuts, pre: seq<Element>, common: seq<Element>,
                                    first: seq<Element>, second: seq<Element>, tail: seq<Element>)
    requires FindCuts(es) == Some(c)
    requires es[..c.commonStart] == pre && es[c.commonStart..c.fe] == common && es[c.fe + 1..c.back] == first
    requires es[c.se + 1..c.end] == second && es[c.end..] == tail
    ensures ExpandVariantEndings(es) == Some(Spread(pre, common, first, second, tail))
  {
  }

  /** The whole expansion: the pieces of an ended repeat, or the loop. */
  method ExpandVoice(es: seq<Element>) returns (out: seq<Element>)
    ensures out == ExpandRepeats(es)
  {
    var cuts := FindCuts(es);
    if cuts.None? {
      out := ExpandLoop(es);
      return;
    }
    var c := cuts.value;
    var pre, common := es[..c.commonStart], es[c.commonStart..c.fe];
    var first, second, tail := es[c.fe + 1..c.back], es[c.se + 1..c.end], es[c.end..];
    out := Pass(pre, common, first);
    out := out + [ABar(Single)];
    out := Pass(out, common, second);
    out := out + tail;
    SpreadAt(es, c, pre, common, first, second, tail);
  }

  lemma {:induction false} PassSounds(out: seq<Element>, common: seq<Element>, ending: seq<Element>)
    ensures Sounding(Pass(out, common, ending)) == Sounding(out) + Sounding(common) + Sounding(ending)
  {
    var bar := [ABar(Single)];
    SoundingOne(bar[0]);
    SoundingConcat(out + common + bar, ending);
    SoundingConcat(out + common, bar);
    SoundingConcat(out, common);
    assert Sounding(out + common) + [] == Sounding(out + common);
  }

  lemma {:induction false} SpreadSounds(pre: seq<Element>, common: seq<Element>, first: seq<Element>,
                                        second: seq<Element>, tail: seq<Element>)
    ensures Sounding(Spread(pre, common, first, second, tail)) ==
            Sounding(pre) + (Sounding(common) + Sounding(first) + Sounding(common) + Sounding(second)) + Sounding(tail)
  {
    var one := Pass(pre, common, first);
    var two := Pass(one + [ABar(Single)], common, second);
    PassSounds(pre, common, first);
    SoundingOne(ABar(Single));
    SoundingConcat(one, [ABar(Single)]);
    assert Sounding(one) + [] == Sounding(one);
    PassSounds(one + [ABar(Single)], common, second);
    SoundingConcat(two, tail);
    RegroupPasses(Sounding(pre), Sounding(common), Sounding(first), Sounding(second));
  }

  lemma {:induction false} RegroupPasses(p: seq<Element>, c: seq<Element>, f: seq<Element>, s: seq<Element>)
    ensures p + c + f + c + s == p + (c + f + c + s)
  {
  }
}
