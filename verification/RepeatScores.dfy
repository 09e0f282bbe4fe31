/** Scores of common shapes: what the expansion plays, and where that is not
    what is written. */
module RepeatScores {
  import opened Prelude
  import opened AbcAst
  import opened Repeats
  import opened RepeatSounds
  import opened RepeatMeaning

  // ------------------------------------------- plain and repeated sections

  predicate NoSigns(es: seq<Element>) {
    forall i :: 0 <= i < |es| ==> !(es[i].ABar? && IsSign(es[i].bar))
  }

  datatype Section = Once(body: seq<Element>) | Twice(body: seq<Element>)

  function Print(ss: seq<Section>): seq<Element> {
    if ss == [] then []
    else (match ss[0]
          case Once(b) => b
          case Twice(b) => [ABar(RepeatStart)] + b + [ABar(RepeatEnd)]) + Print(ss[1..])
  }

  function Play(ss: seq<Section>): seq<Element> {
    if ss == [] then []
    else (match ss[0]
          case Once(b) => Sounding(b)
          case Twice(b) => Sounding(b) + Sounding(b)) + Play(ss[1..])
  }

  lemma {:induction false} WindAllConcat(t: Tape, xs: seq<Element>, ys: seq<Element>)
    ensures WindAll(t, xs + ys) == WindAll(WindAll(t, xs), ys)
    decreases |xs|
  {
    if xs == [] {
      assert xs + ys == ys;
    } else {
      assert (xs + ys)[1..] == xs[1..] + ys;
      WindAllConcat(Wind(t, xs[0]), xs[1..], ys);
    }
  }

  /** Music without signs is recorded as it stands. */
  lemma {:induction false} WindMusic(t: Tape, m: seq<Element>)
    requires NoSigns(m)
    ensures WindAll(t, m) == Tape(t.out + Sounding(m), t.section + Sounding(m), t.open)
    decreases |m|
  {
    if m == [] {
      NothingMore(t.out);
      NothingMore(t.section);
    } else {
      var head, rest := Copies(t, m[0]), Sounding(m[1..]);
      assert head == if m[0].ABar? then [] else [m[0]];
      assert Sounding(m) == head + rest;
      WindMusic(Wind(t, m[0]), m[1..]);
      Associate(t.out, head, rest);
      Associate(t.section, head, rest);
    }
  }

  lemma {:induction false} WindOne(t: Tape, e: Element)
    ensures WindAll(t, [e]) == Wind(t, e)
  {
    assert [e][1..] == [];
  }

  lemma {:induction false} WindTwice(t: Tape, b: seq<Element>)
    requires NoSigns(b)
    ensures WindAll(t, [ABar(RepeatStart)] + b + [ABar(RepeatEnd)]).out == t.out + (Sounding(b) + Sounding(b))
  {
    var t1 := Tape(t.out, [], true);
    WindAllConcat(t, [ABar(RepeatStart)] + b, [ABar(RepeatEnd)]);
    WindAllConcat(t, [ABar(RepeatStart)], b);
    WindOne(t, ABar(RepeatStart));
    NothingMore(t.out);
    WindMusic(t1, b);
    assert [] + Sounding(b) == Sounding(b);
    WindOne(Tape(t.out + Sounding(b), Sounding(b), true), ABar(RepeatEnd));
    Associate(t.out, Sounding(b), Sounding(b));
  }

  lemma {:induction false} WindSections(t: Tape, ss: seq<Section>)
    requires forall x :: x in ss ==> NoSigns(x.body)
    ensures WindAll(t, Print(ss)).out == t.out + Play(ss)
    decreases |ss|
  {
    if ss == [] {
      NothingMore(t.out);
    } else {
      var head := match ss[0] case Once(b) => b case Twice(b) => [ABar(RepeatStart)] + b + [ABar(RepeatEnd)];
      var heard := match ss[0] case Once(b) => Sounding(b) case Twice(b) => Sounding(b) + Sounding(b);
      assert ss[0] in ss && forall x :: x in ss[1..] ==> x in ss;
      WindAllConcat(t, head, Print(ss[1..]));
      WindMusic(t, ss[0].body);
      WindTwice(t, ss[0].body);
      WindSections(WindAll(t, head), ss[1..]);
      Associate(t.out, heard, Play(ss[1..]));
    }
  }

  lemma {:induction false} SectionsHaveNoEndings(ss: seq<Section>)
    requires forall x :: x in ss ==> NoSigns(x.body)
    ensures NoEndings(Print(ss))
    decreases |ss|
  {
    if ss != [] {
      assert ss[0] in ss && forall x :: x in ss[1..] ==> x in ss;
      SectionsHaveNoEndings(ss[1..]);
    }
  }

  /** On any list of plain and repeated sections the expansion sounds each
      repeated section twice and everything else once. */
  lemma {:induction false} SectionsTwiceOrOnce(ss: seq<Section>)
    requires forall x :: x in ss ==> NoSigns(x.body)
    ensures Sounding(ExpandRepeats(Print(ss))) == Play(ss)
  {
    SectionsHaveNoEndings(ss);
    NoCuts(Print(ss), 0);
    SimpleSounds(Print(ss));
    WindSections(EMPTY, ss);
    assert [] + Play(ss) == Play(ss);
  }

  // ---------------------------------------------------- one ended repeat

  /** `|:` or nothing, the common part, `|1`, the first ending, `:|2` or `:|[2`,
      the second ending. */
  function EndedText(start: bool, bare: bool, common: seq<Element>, first: seq<Element>,
                     second: seq<Element>): seq<Element> {
    (if start then [ABar(RepeatStart)] else []) +
    (common + ([ABar(FirstEnding)] + (first + ((if bare then [ABar(RepeatEnd)]
        else []) + ([ABar(SecondEnding)] + second)))))
  }

  lemma {:induction false} CutAllConcat(c: Cutting, xs: seq<Element>, ys: seq<Element>)
    ensures CutAll(c, xs + ys) == CutAll(CutAll(c, xs), ys)
    decreases |xs|
  {
    if xs == [] {
      assert xs + ys == ys;
    } else {
      assert (xs + ys)[1..] == xs[1..] + ys;
      CutAllConcat(Snip(c, xs[0]), xs[1..], ys);
    }
  }

  lemma {:induction false} CutOne(c: Cutting, e: Element)
    ensures CutAll(c, [e]) == Snip(c, e)
  {
    assert [e][1..] == [];
  }

  /** Music without signs goes into the piece being read. */
  lemma {:induction false} CutCommon(pre: seq<Element>, common: seq<Element>, m: seq<Element>)
    requires NoSigns(m)
    ensures CutAll(Seek(pre, common), m) == Seek(pre, common + m)
    decreases |m|
  {
    if m == [] {
      NothingMore(common);
    } else {
      CutCommon(pre, common + [m[0]], m[1..]);
      assert common + [m[0]] + m[1..] == common + m;
    }
  }

  lemma {:induction false} CutFirstEnding(pre: seq<Element>, common: seq<Element>, first: seq<Element>, m: seq<Element>)
    requires NoSigns(m)
    ensures CutAll(InFirst(pre, common, first), m) == InFirst(pre, common, first + m)
    decreases |m|
  {
    if m == [] {
      NothingMore(first);
    } else {
      CutFirstEnding(pre, common, first + [m[0]], m[1..]);
      assert first + [m[0]] + m[1..] == first + m;
    }
  }

  lemma {:induction false} CutSecondEnding(c: Cutting, m: seq<Element>)
    requires c.InSecond? && NoSigns(m)
    ensures CutAll(c, m) == InSecond(c.pre, c.common, c.first, c.second + m)
    decreases |m|
  {
    if m == [] {
      NothingMore(c.second);
    } else {
      CutSecondEnding(Snip(c, m[0]), m[1..]);
      assert c.second + [m[0]] + m[1..] == c.second + m;
    }
  }

  lemma {:induction false} EndedIsCut(start: bool, bare: bool, common: seq<Element>, first: seq<Element>,
                                      second: seq<Element>)
    requires NoSigns(common) && NoSigns(first) && NoSigns(second)
    ensures CutAll(Seek([], []), EndedText(start, bare, common, first, second))
            == InSecond(if start then [ABar(RepeatStart)] else [], common, first, second)
  {
    var pre := if start then [ABar(RepeatStart)] else [];
    var end := (if bare then [ABar(RepeatEnd)] else []) + ([ABar(SecondEnding)] + second);
    CutAllConcat(Seek([], []), pre, common + ([ABar(FirstEnding)] + (first + end)));
    CutOne(Seek([], []), ABar(RepeatStart));
    assert CutAll(Seek([], []), pre) == Seek(pre, []);
    CutAllConcat(Seek(pre, []), common, [ABar(FirstEnding)] + (first + end));
    CutCommon(pre, [], common);
    assert [] + common == common;
    CutAllConcat(Seek(pre, common), [ABar(FirstEnding)], first + end);
    CutOne(Seek(pre, common), ABar(FirstEnding));
    CutAllConcat(InFirst(pre, common, []), first, end);
    CutFirstEnding(pre, common, [], first);
    assert [] + first == first;
    EndIsCut(bare, pre, common, first, second);
  }

  lemma {:induction false} EndIsCut(bare: bool, pre: seq<Element>, common: seq<Element>, first: seq<Element>,
                                    second: seq<Element>)
    requires NoSigns(second)
    ensures CutAll(InFirst(pre, common, first),
            (if bare then [ABar(RepeatEnd)] else []) + ([ABar(SecondEnding)] + second))
            == InSecond(pre, common, first, second)
  {
    var c, last := InFirst(pre, common, first), [ABar(SecondEnding)] + second;
    if bare {
      CutNext(c, ABar(RepeatEnd), last);
      SecondIsRead(Closed(pre, common, first), second);
    } else {
      assert [] + last == last;
      SecondIsRead(c, second);
    }
  }

  lemma {:induction false} SecondIsRead(c: Cutting, second: seq<Element>)
    requires (c.InFirst? || c.Closed?) && NoSigns(second)
    ensures CutAll(c, [ABar(SecondEnding)] + second) == InSecond(c.pre, c.common, c.first, second)
  {
    CutNext(c, ABar(SecondEnding), second);
    CutSecondEnding(InSecond(c.pre, c.common, c.first, []), second);
    assert [] + second == second;
  }

  /** It plays common, first, common, second. */
  lemma {:induction false} EndedSectionPlays(start: bool, bare: bool, common: seq<Element>, first: seq<Element>,
                                             second: seq<Element>)
    requires NoSigns(common) && NoSigns(first) && NoSigns(second)
    ensures Sounding(ExpandRepeats(EndedText(start, bare, common, first, second)))
            == Sounding(common) + Sounding(first) + Sounding(common) + Sounding(second)
  {
    var es := EndedText(start, bare, common, first, second);
    EndedIsCut(start, bare, common, first, second);
    CutIsSearch(es);
    JoinedSounds(CutAll(Seek([], []), es));
    SoundingOne(ABar(RepeatStart));
    assert [] + Sounding(common) == Sounding(common);
  }

  // ------------------------------------------------- not played as written

  lemma {:induction false} ReadNext(s: Score, e: Element, rest: seq<Element>)
    ensures ReadAll(s, [e] + rest) == ReadAll(Read(s, e), rest)
  {
    assert ([e] + rest)[1..] == rest;
  }

  lemma {:induction false} WindNext(t: Tape, e: Element, rest: seq<Element>)
    ensures WindAll(t, [e] + rest) == WindAll(Wind(t, e), rest)
  {
    assert ([e] + rest)[1..] == rest;
  }

  lemma {:induction false} CutNext(c: Cutting, e: Element, rest: seq<Element>)
    ensures CutAll(c, [e] + rest) == CutAll(Snip(c, e), rest)
  {
    assert ([e] + rest)[1..] == rest;
  }

  lemma {:induction false} LoopSounds(es: seq<Element>)
    requires NoEndings(es)
    ensures Sounding(ExpandRepeats(es)) == WindAll(EMPTY, es).out
  {
    NoCuts(es, 0);
    SimpleSounds(es);
  }

  /** `A s B :|` for a sign s. */
  function TwoParts(a: Element, s: Bar, b: Element): seq<Element> {
    [a] + ([ABar(s)] + ([b] + ([ABar(RepeatEnd)] + [])))
  }

  /** `A :| B :|`: the second closing sign replays everything so far. */
  lemma {:induction false} SecondCloseReplaysAll(a: Element, b: Element)
    requires !a.ABar? && !b.ABar?
    ensures Sounding(ExpandRepeats(TwoParts(a, RepeatEnd, b))) == [a, a, b, a, a, b]
    ensures Performed(TwoParts(a, RepeatEnd, b)) == [a, a, b, b]
  {
    var e := ABar(RepeatEnd);
    LoopSounds(TwoParts(a, RepeatEnd, b));
    WindParts(a, e, b, Tape([a, a], [], false));
    ReadParts(a, e, b, Score([a, a], [], Plain(false)));
  }

  /** `A || B :|`: the closing sign goes back past the double bar. */
  lemma {:induction false} DoubleBarIsPassed(a: Element, b: Element, s: Bar)
    requires !a.ABar? && !b.ABar? && IsDouble(s)
    ensures Sounding(ExpandRepeats(TwoParts(a, s, b))) == [a, b, a, b] && Performed(TwoParts(a, s, b)) == [a, b, b]
  {
    assert Sounding(ExpandRepeats(TwoParts(a, s, b))) == [a, b, a, b] by {
      LoopSounds(TwoParts(a, s, b));
      WindParts(a, ABar(s), b, Tape([a], [a], false));
    }
    assert Performed(TwoParts(a, s, b)) == [a, b, b] by {
      ReadParts(a, ABar(s), b, Score([a], [], Plain(false)));
    }
  }

  lemma {:induction false} WindParts(a: Element, s: Element, b: Element, t: Tape)
    requires !a.ABar? && !b.ABar? && Wind(Tape([a], [a], false), s) == t && !t.open
    ensures WindAll(EMPTY, [a] + ([s] + ([b] + ([ABar(RepeatEnd)] + [])))).out == t.out + [b] + (t.out + [b])
  {
    var e := ABar(RepeatEnd);
    var t1, t3 := Tape([a], [a], false), Tape(t.out + [b], t.section + [b], false);
    assert Wind(EMPTY, a) == t1 && Wind(t, b) == t3;
    WindNext(EMPTY, a, [s] + ([b] + ([e] + [])));
    WindNext(t1, s, [b] + ([e] + []));
    WindNext(t, b, [e] + []);
    WindNext(t3, e, []);
  }

  lemma {:induction false} ReadParts(a: Element, s: Element, b: Element, x: Score)
    requires !a.ABar? && !b.ABar? && Read(Score([], [a], Plain(false)), s) == x && x.mode == Plain(false)
             && x.common == []
    ensures Performed([a] + ([s] + ([b] + ([ABar(RepeatEnd)] + [])))) == x.played + [b] + [b]
  {
    var e := ABar(RepeatEnd);
    var s1, s3, s4 := Score([], [a], Plain(false)), Score(x.played, [b], Plain(false)),
        Score(x.played + [b] + [b], [], Plain(false));
    assert Read(BLANK, a) == s1 && Read(x, b) == s3 && Read(s3, e) == s4;
    ReadNext(BLANK, a, [s] + ([b] + ([e] + [])));
    ReadNext(s1, s, [b] + ([e] + []));
    ReadNext(x, b, [e] + []);
    ReadNext(s3, e, []);
    NothingMore(s4.played);
  }

  /** `A || B |1 C |2 D`: the second pass starts before the double bar. */
  lemma {:induction false} DoubleBarIsPassedByEndings(a: Element, s: Bar, b: Element, c: Element, d: Element)
    requires !a.ABar? && !b.ABar? && !c.ABar? && !d.ABar? && IsDouble(s)
    ensures var es := EndedText(false, false, [a, ABar(s), b], [c], [d]);
            Sounding(ExpandRepeats(es)) == [a, b, c, a, b, d] && Performed(es) == [a, b, c, b, d]
  {
    DividedSounds(a, s, b, c, d);
    DividedEndings(a, s, b, c, d);
  }

  lemma {:induction false} DividedSounds(a: Element, s: Bar, b: Element, c: Element, d: Element)
    requires !a.ABar? && !b.ABar? && !c.ABar? && !d.ABar? && IsDouble(s)
    ensures Sounding(ExpandRepeats(EndedText(false, false, [a, ABar(s), b], [c], [d]))) == [a, b, c, a, b, d]
  {
    SoundingDivided(a, s, b);
    SoundingOne(c);
    SoundingOne(d);
    EndedSounds([a, ABar(s), b], [c], [d], [a, b], [c], [d], [a, b, c, a, b, d]);
  }

  lemma {:induction false} EndedSounds(common: seq<Element>, first: seq<Element>, second: seq<Element>,
                                       xs: seq<Element>, ys: seq<Element>, zs: seq<Element>, all: seq<Element>)
    requires NoSigns(common) && NoSigns(first) && NoSigns(second)
    requires Sounding(common) == xs && Sounding(first) == ys && Sounding(second) == zs && all == xs + ys + xs + zs
    ensures Sounding(ExpandRepeats(EndedText(false, false, common, first, second))) == all
  {
    EndedSectionPlays(false, false, common, first, second);
  }

  lemma {:induction false} SoundingDivided(a: Element, s: Bar, b: Element)
    requires !a.ABar? && !b.ABar?
    ensures Sounding([a, ABar(s), b]) == [a, b]
  {
    assert [a, ABar(s), b] == [a] + ([ABar(s)] + [b]);
    SoundingConcat([a], [ABar(s)] + [b]);
    SoundingConcat([ABar(s)], [b]);
    SoundingOne(a);
    SoundingOne(ABar(s));
    SoundingOne(b);
    assert [a] + ([] + [b]) == [a, b];
  }

  lemma {:induction false} DividedEndings(a: Element, s: Bar, b: Element, c: Element, d: Element)
    requires !a.ABar? && !b.ABar? && !c.ABar? && !d.ABar? && IsDouble(s)
    ensures Performed(EndedText(false, false, [a, ABar(s), b], [c], [d])) == [a, b, c, b, d]
  {
    var r4 := [c] + ([ABar(SecondEnding)] + ([d] + []));
    var r2 := [b] + ([ABar(FirstEnding)] + r4);
    assert EndedText(false, false, [a, ABar(s), b], [c], [d]) == [a] + ([ABar(s)] + r2);
    var s1, s2 := Score([], [a], Plain(false)), Score([a], [], Plain(false));
    var s3, s4 := Score([a], [b], Plain(false)), Score([a], [b], InEnding([], 1, false));
    assert Read(BLANK, a) == s1 && Read(s1, ABar(s)) == s2 && Read(s2, b) == s3 && Read(s3, ABar(FirstEnding)) == s4;
    ReadNext(BLANK, a, [ABar(s)] + r2);
    ReadNext(s1, ABar(s), r2);
    ReadNext(s2, b, [ABar(FirstEnding)] + r4);
    ReadNext(s3, ABar(FirstEnding), r4);
    DividedEndingsOn(a, b, c, d);
  }

  lemma {:induction false} DividedEndingsOn(a: Element, b: Element, c: Element, d: Element)
    requires !c.ABar? && !d.ABar?
    ensures Finished(ReadAll(Score([a], [b], InEnding([], 1, false)), [c] + ([ABar(SecondEnding)] + ([d] + []))))
            == [a, b, c, b, d]
  {
    var s4, s5 := Score([a], [b], InEnding([], 1, false)), Score([a], [b], InEnding([c], 1, false));
    var s6, s7 := Score([a, b, c], [b], InEnding([], 1, false)), Score([a, b, c], [b], InEnding([d], 1, false));
    FinishedIs(s5);
    assert Finished(s5) == [a, b, c];
    assert [] + [c] == [c] && [] + [d] == [d];
    assert Read(s4, c) == s5 && Read(s5, ABar(SecondEnding)) == s6 && Read(s6, d) == s7;
    ReadNext(s4, c, [ABar(SecondEnding)] + ([d] + []));
    ReadNext(s5, ABar(SecondEnding), [d] + []);
    ReadNext(s6, d, []);
    FinishedIs(s7);
    assert Heard(s7) + [] == [a, b, c, b, d];
  }

  /** `|: A |1 B :| X |2 C`: what stands between the closing sign and the second ending. */
  function GapText(a: Element, b: Element, x: Element, c: Element): seq<Element> {
    [ABar(RepeatStart)] + ([a] + ([ABar(FirstEnding)] + ([b]
    + ([ABar(RepeatEnd)] + ([x] + ([ABar(SecondEnding)] + ([c] + [])))))))
  }

  lemma {:induction false} GapPerformed(a: Element, b: Element, x: Element, c: Element)
    requires !a.ABar? && !b.ABar? && !x.ABar? && !c.ABar?
    ensures Performed(GapText(a, b, x, c)) == [a, b, a, x, c]
  {
    var r5 := [x] + ([ABar(SecondEnding)] + ([c] + []));
    var r3 := [b] + ([ABar(RepeatEnd)] + r5);
    var s0, s1 := Score([], [], Plain(true)), Score([], [a], Plain(true));
    var s2, s3 := Score([], [a], InEnding([], 1, false)), Score([], [a], InEnding([b], 1, false));
    assert Read(BLANK, ABar(RepeatStart)) == s0 && Read(s0, a) == s1;
    assert [] + [b] == [b];
    assert Read(s1, ABar(FirstEnding)) == s2 && Read(s2, b) == s3;
    ReadNext(BLANK, ABar(RepeatStart), [a] + ([ABar(FirstEnding)] + r3));
    ReadNext(s0, a, [ABar(FirstEnding)] + r3);
    ReadNext(s1, ABar(FirstEnding), r3);
    ReadNext(s2, b, [ABar(RepeatEnd)] + r5);
    GapPerformedOn(a, b, x, c);
  }

  lemma {:induction false} GapPerformedOn(a: Element, b: Element, x: Element, c: Element)
    requires !a.ABar? && !b.ABar? && !x.ABar? && !c.ABar?
    ensures Finished(ReadAll(Score([], [a], InEnding([b], 1, false)),
            [ABar(RepeatEnd)] + ([x] + ([ABar(SecondEnding)] + ([c] + []))))) == [a, b, a, x, c]
  {
    var r7 := [c] + [];
    var r6 := [ABar(SecondEnding)] + r7;
    var s3, s4, s5 := Score([], [a], InEnding([b], 1, false)), Score([a, b], [a], Back([], false)),
        Score([a, b], [a], Back([x], false));
    var s6, s7 := Score([a, b], [a], InEnding([x], 1, false)), Score([a, b], [a], InEnding([x, c], 1, false));
    FinishedIs(s3);
    assert Finished(s3) == [a, b];
    assert [] + [x] == [x] && [x] + [c] == [x, c];
    assert Read(s3, ABar(RepeatEnd)) == s4 && Read(s4, x) == s5;
    assert Read(s5, ABar(SecondEnding)) == s6 && Read(s6, c) == s7;
    ReadNext(s3, ABar(RepeatEnd), [x] + r6);
    ReadNext(s4, x, r6);
    ReadNext(s5, ABar(SecondEnding), r7);
    ReadNext(s6, c, []);
    FinishedIs(s7);
    assert Heard(s7) + [] == [a, b, a, x, c];
  }

  /** It is lost: the program plays A B A C. */
  lemma {:induction false} MusicBeforeSecondEndingIsLost(a: Element, b: Element, x: Element, c: Element)
    requires !a.ABar? && !b.ABar? && !x.ABar? && !c.ABar?
    ensures Sounding(ExpandRepeats(GapText(a, b, x, c))) == [a, b, a, c]
            && Performed(GapText(a, b, x, c)) == [a, b, a, x, c]
  {
    GapPerformed(a, b, x, c);
    CutIsSearch(GapText(a, b, x, c));
    GapCut(a, b, x, c);
    var pieces := InSecond([ABar(RepeatStart)], [a], [b], [c]);
    JoinedSounds(pieces);
    GapHeard(a, b, c);
  }

  lemma {:induction false} GapHeard(a: Element, b: Element, c: Element)
    requires !a.ABar? && !b.ABar? && !c.ABar?
    ensures CutHeard(InSecond([ABar(RepeatStart)], [a], [b], [c])) == [a, b, a, c]
  {
    SoundingOne(ABar(RepeatStart));
    SoundingOne(a);
    SoundingOne(b);
    SoundingOne(c);
  }

  lemma {:induction false} GapCut(a: Element, b: Element, x: Element, c: Element)
    requires !a.ABar? && !b.ABar? && !x.ABar? && !c.ABar?
    ensures CutAll(Seek([], []), GapText(a, b, x, c)) == InSecond([ABar(RepeatStart)], [a], [b], [c])
  {
    var pre := [ABar(RepeatStart)];
    var r5 := [x] + ([ABar(SecondEnding)] + ([c] + []));
    var r3 := [b] + ([ABar(RepeatEnd)] + r5);
    assert Snip(Seek([], []), pre[0]) == Seek(pre, []) && Snip(Seek(pre, []), a) == Seek(pre, [a]);
    assert Snip(Seek(pre, [a]), ABar(FirstEnding)) == InFirst(pre, [a], [])
           && Snip(InFirst(pre, [a], []), b) == InFirst(pre, [a], [b]);
    CutNext(Seek([], []), pre[0], [a] + ([ABar(FirstEnding)] + r3));
    CutNext(Seek(pre, []), a, [ABar(FirstEnding)] + r3);
    CutNext(Seek(pre, [a]), ABar(FirstEnding), r3);
    CutNext(InFirst(pre, [a], []), b, [ABar(RepeatEnd)] + r5);
    GapCutOn(pre, a, b, x, c);
  }

  lemma {:induction false} GapCutOn(pre: seq<Element>, a: Element, b: Element, x: Element, c: Element)
    requires !a.ABar? && !b.ABar? && !x.ABar? && !c.ABar?
    ensures CutAll(InFirst(pre, [a], [b]), [ABar(RepeatEnd)] + ([x] + ([ABar(SecondEnding)] + ([c] + []))))
            == InSecond(pre, [a], [b], [c])
  {
    var r7 := [c] + [];
    var r6 := [ABar(SecondEnding)] + r7;
    assert Snip(InSecond(pre, [a], [b], []), c) == InSecond(pre, [a], [b], [c]);
    CutNext(InFirst(pre, [a], [b]), ABar(RepeatEnd), [x] + r6);
    CutNext(Closed(pre, [a], [b]), x, r6);
    CutNext(Closed(pre, [a], [b]), ABar(SecondEnding), r7);
    CutNext(InSecond(pre, [a], [b], []), c, []);
  }
}
