/** What repeat signs and variant endings mean, and when the expansion plays
    a voice as it is written (sections 4.8 to 4.10 of ABC v2.1). */
module RepeatMeaning {
  import opened Prelude
  import opened AbcAst
  import opened Repeats
  import opened RepeatSounds

  // ------------------------------------------------------- the performance

  predicate IsEnding(b: Bar) {
    b.FirstEnding? || b.SecondEnding? || b.NthEnding?
  }

  /** The bars that direct the player. Of the others, double bars can start a
      section and end an ending; single ones are only drawn. */
  predicate IsSign(b: Bar) {
    b.RepeatStart? || b.RepeatEnd? || b.RepeatBoth? || IsEnding(b)
  }

  /** `||`, `|]` and `[|`. */
  predicate IsDouble(b: Bar) {
    b.Double? || b.End? || b.Begin?
  }

  /** The passes an ending is for. */
  function Passes(b: Bar): (n: nat)
    ensures n >= 1
  {
    if b.NthEnding? then Max(|b.passes|, 1) else 1
  }

  /** Where a reader stands in a section: before any ending, in an ending, or
      sent back by a closing sign inside an ending. `own`: the section has a
      `|:` of its own; `over`: a double bar has ended the ending. */
  datatype Mode =
    | Plain(own: bool)
    | InEnding(body: seq<Element>, passes: nat, over: bool)
    | Back(body: seq<Element>, over: bool)

  /** A reading of the score: what was played before this pass of the section,
      the part of the section common to its passes, and where the reader is. */
  datatype Score = Score(played: seq<Element>, common: seq<Element>, mode: Mode)
  {
    predicate Valid() {
      mode.InEnding? ==> mode.passes >= 1
    }

    function Body(): seq<Element> {
      if mode.Plain? then [] else mode.body
    }
  }

  function Times(n: nat, s: seq<Element>): seq<Element> {
    if n == 0 then [] else s + Times(n - 1, s)
  }

  /** What has been played when the section ends here: an ending is played
      after the common part, once for each of its passes. */
  function Finished(s: Score): seq<Element> {
    match s.mode
    case Plain(_) => s.played + s.common
    case InEnding(body, passes, _) => s.played + Times(passes, s.common + body)
    case Back(body, _) => s.played + s.common + body
  }

  /** `|:` starts a section. */
  function Open(s: Score): Score {
    Score(Finished(s), [], Plain(true))
  }

  /** A double bar starts a section, unless the reader is in one that has its
      own `|:`. It ends an ending; another may follow. */
  function Divide(s: Score): Score {
    if !s.mode.Plain? then s.(mode := s.mode.(over := true))
    else if s.mode.own then s
    else Score(Finished(s), [], Plain(false))
  }

  predicate Over(s: Score) {
    !s.mode.Plain? && s.mode.over
  }

  /** `:|` plays a section without endings again; inside an ending it ends the
      ending and sends the reader back to the start of the section. */
  function Close(s: Score): Score {
    if s.mode.Plain? then Score(s.played + s.common + s.common, [], Plain(false))
    else Score(Finished(s), s.common, Back([], false))
  }

  /** An ending marker: the pass of the ending before it is over. */
  function Begin(s: Score, passes: nat): Score {
    match s.mode
    case Plain(_) => s.(mode := InEnding([], passes, false))
    case InEnding(_, _, _) => Score(Finished(s), s.common, InEnding([], passes, false))
    case Back(body, _) => s.(mode := InEnding(body, passes, false))
  }

  /** What sounds after an ending is over starts a section. */
  function Sound(s: Score, e: Element): Score {
    if Over(s) then Score(Finished(s), [e], Plain(false))
    else match s.mode
      case Plain(_) => s.(common := s.common + [e])
      case InEnding(body, passes, over) => s.(mode := InEnding(body + [e], passes, over))
      case Back(body, over) => s.(mode := Back(body + [e], over))
  }

  function Read(s: Score, e: Element): Score {
    if !e.ABar? then Sound(s, e)
    else if e.bar.RepeatStart? then Open(s)
    else if e.bar.RepeatEnd? then Close(s)
    else if e.bar.RepeatBoth? then Open(Close(s))
    else if IsEnding(e.bar) then Begin(s, Passes(e.bar))
    else if IsDouble(e.bar) then Divide(s)
    else s
  }

  function ReadAll(s: Score, es: seq<Element>): Score
    decreases |es|
  {
    if es == [] then s else ReadAll(Read(s, es[0]), es[1..])
  }

  const BLANK := Score([], [], Plain(false))

  /** The performance of a voice. */
  function Performed(es: seq<Element>): seq<Element> {
    Finished(ReadAll(BLANK, es))
  }

  /** The expansion plays the voice as written. */
  predicate AsWritten(es: seq<Element>) {
    Sounding(ExpandRepeats(es)) == Performed(es)
  }

  // ---------------------------------------------- what is certainly played

  /** What has been played for certain, whatever follows. */
  function Heard(s: Score): seq<Element> {
    s.played + s.common + s.Body()
  }

  /** The further passes of an ending. */
  function Owed(s: Score): seq<Element>
    requires s.Valid()
  {
    if s.mode.InEnding? then Times(s.mode.passes - 1, s.common + s.mode.body) else []
  }

  /** What reading one element adds to what is certainly played. */
  function Adds(s: Score, e: Element): seq<Element>
    requires s.Valid()
  {
    if !e.ABar? then (if Over(s) then Owed(s) + [e] else [e])
    else if e.bar.RepeatStart? then Owed(s)
    else if e.bar.RepeatEnd? || e.bar.RepeatBoth? then Owed(s) + s.common
    else if IsEnding(e.bar) && s.mode.InEnding? then Owed(s) + s.common
    else []
  }

  lemma {:induction false} FinishedIs(s: Score)
    requires s.Valid()
    ensures Finished(s) == Heard(s) + Owed(s)
  {
    match s.mode
    case Plain(_) => assert s.played + s.common + [] + [] == s.played + s.common;
    case InEnding(b, n, _) =>
      assert Times(n, s.common + b) == (s.common + b) + Times(n - 1, s.common + b);
      assert s.played + ((s.common + b) + Owed(s)) == s.played + s.common + b + Owed(s);
    case Back(b, _) => assert s.played + s.common + b + [] == s.played + s.common + b;
  }

  lemma {:induction false} ReadAdds(s: Score, e: Element)
    requires s.Valid()
    ensures Read(s, e).Valid() && Heard(Read(s, e)) == Heard(s) + Adds(s, e)
  {
    FinishedIs(s);
    if !e.ABar? {
      SoundAdds(s, e);
    } else if e.bar.RepeatStart? {
      assert Finished(s) + [] + [] == Finished(s);
    } else if e.bar.RepeatEnd? || e.bar.RepeatBoth? {
      CloseAdds(s);
      FinishedIs(Close(s));
    } else if IsEnding(e.bar) {
      BeginAdds(s, Passes(e.bar));
    } else {
      assert Heard(s) + [] == Heard(s);
      assert s.mode.Plain? ==> Finished(s) + [] + [] == s.played + s.common + [];
    }
  }

  lemma {:induction false} SoundAdds(s: Score, e: Element)
    requires s.Valid()
    ensures Heard(Sound(s, e)) == Heard(s) + if Over(s) then Owed(s) + [e] else [e]
  {
    if Over(s) {
      FinishedIs(s);
      assert Finished(s) + [e] + [] == Heard(s) + (Owed(s) + [e]);
    } else if s.mode.Plain? {
      assert s.played + (s.common + [e]) + [] == s.played + s.common + [] + [e];
    } else {
      assert s.played + s.common + (s.Body() + [e]) == s.played + s.common + s.Body() + [e];
    }
  }

  lemma {:induction false} CloseAdds(s: Score)
    requires s.Valid()
    ensures Close(s).Valid() && Heard(Close(s)) == Heard(s) + (Owed(s) + s.common)
    ensures Owed(Close(s)) == [] && Finished(Close(s)) == Heard(Close(s))
  {
    FinishedIs(s);
    if s.mode.Plain? {
      assert s.played + s.common + s.common + [] + [] == s.played + s.common + [] + ([] + s.common);
    } else {
      assert Finished(s) + s.common + [] == Heard(s) + (Owed(s) + s.common);
    }
    assert Heard(Close(s)) + [] == Heard(Close(s));
    FinishedIs(Close(s));
  }

  lemma {:induction false} BeginAdds(s: Score, n: nat)
    requires s.Valid() && n >= 1
    ensures Begin(s, n).Valid() && Heard(Begin(s, n))
            == Heard(s) + (if s.mode.InEnding? then Owed(s) + s.common else [])
  {
    FinishedIs(s);
    if s.mode.InEnding? {
      assert Finished(s) + s.common + [] == Heard(s) + (Owed(s) + s.common);
    } else {
      assert Heard(s) + [] == Heard(s);
    }
  }

  lemma {:induction false} HeardIsKept(s: Score, es: seq<Element>)
    requires s.Valid()
    ensures ReadAll(s, es).Valid() && Heard(s) <= Finished(ReadAll(s, es))
    decreases |es|
  {
    if es == [] {
      FinishedIs(s);
    } else {
      ReadAdds(s, es[0]);
      HeardIsKept(Read(s, es[0]), es[1..]);
    }
  }

  // ------------------------------------------------ voices without endings

  predicate NoEndings(es: seq<Element>) {
    forall i :: 0 <= i < |es| ==> !(es[i].ABar? && IsEnding(es[i].bar))
  }

  predicate Closes(e: Element) {
    e.ABar? && (e.bar.RepeatEnd? || e.bar.RepeatBoth?)
  }

  predicate Turns(e: Element) {
    Closes(e) || (e.ABar? && e.bar.RepeatStart?)
  }

  /** What a reader of the signs alone keeps: is a repeat open, did anything
      sound before this section, does anything sound in it. */
  datatype Seen = Seen(open: bool, before: bool, here: bool)

  function See(k: Seen, e: Element): Seen {
    if !e.ABar? then k.(here := true)
    else if Turns(e) then Seen(!e.bar.RepeatEnd?, k.before || k.here, false)
    else if IsDouble(e.bar) && !k.open then Seen(false, k.before || k.here, false)
    else k
  }

  predicate KnownStart(k: Seen, e: Element) {
    Closes(e) ==> k.open || !k.before
  }

  /** Every closing sign has an opening sign of its own, or nothing sounds
      before its section: no music before the last double bar or closing sign. */
  predicate StartsKnown(k: Seen, es: seq<Element>)
    decreases |es|
  {
    es == [] || (KnownStart(k, es[0]) && StartsKnown(See(k, es[0]), es[1..]))
  }

  /** Tape, reading and signs agree on the section. */
  ghost predicate Abreast(t: Tape, s: Score, k: Seen) {
    && s.mode == Plain(k.open) && (t.open ==> t.section == s.common) && t.open == k.open
    && (k.before <==> s.played != []) && (k.here <==> s.common != [])
  }

  lemma {:induction false} StepAbreast(t: Tape, s: Score, k: Seen, e: Element)
    requires Abreast(t, s, k) && !(e.ABar? && IsEnding(e.bar))
    ensures Abreast(Wind(t, e), Read(s, e), See(k, e))
  {
    if Turns(e) {
      assert Read(s, e).common == [] && Read(s, e).mode.Plain?;
    }
  }

  lemma {:induction false} StepFinishes(s: Score, e: Element)
    requires s.mode.Plain? && !(e.ABar? && IsEnding(e.bar))
    ensures Finished(Read(s, e)) == Finished(s) + (if Closes(e) then s.common else if e.ABar? then [] else [e])
  {
    NothingMore(s.played + s.common);
    NothingMore(s.played + s.common + s.common);
    if !e.ABar? {
      Associate(s.played, s.common, [e]);
    }
  }

  /** One element: level stays level exactly at known starts, and a tape that
      is longer stays longer. */
  lemma {:induction false} StepLevel(t: Tape, s: Score, k: Seen, e: Element)
    requires Abreast(t, s, k) && !(e.ABar? && IsEnding(e.bar))
    requires t.out == Finished(s) || |t.out| > |Finished(s)|
    ensures var t', s' := Wind(t, e), Read(s, e);
            if t.out == Finished(s) && KnownStart(k, e) then t'.out == Finished(s') else |t'.out| > |Finished(s')|
  {
    StepFinishes(s, e);
    if Closes(e) && !t.open {
      assert Again(t) == t.out;
      assert |Finished(s)| == |s.played| + |s.common|;
      assert s.played == [] ==> s.played + s.common == s.common;
    }
  }

  lemma {:induction false} WithoutEndings(t: Tape, s: Score, k: Seen, es: seq<Element>)
    requires NoEndings(es) && Abreast(t, s, k)
    requires t.out == Finished(s) || |t.out| > |Finished(s)|
    ensures var out, heard := WindAll(t, es).out, Finished(ReadAll(s, es));
            if t.out == Finished(s) && StartsKnown(k, es) then out == heard else |out| > |heard|
    decreases |es|
  {
    if es != [] {
      StepAbreast(t, s, k, es[0]);
      StepLevel(t, s, k, es[0]);
      WithoutEndings(Wind(t, es[0]), Read(s, es[0]), See(k, es[0]), es[1..]);
    }
  }

  /** Without endings, a voice is played as written exactly when every closing
      sign's section has a known start; otherwise more is played. */
  lemma {:induction false} RepeatsKeepMeaning(es: seq<Element>)
    requires NoEndings(es)
    ensures AsWritten(es) <==> StartsKnown(Seen(false, false, false), es)
    ensures |Sounding(ExpandRepeats(es))| >= |Performed(es)|
  {
    NoCuts(es, 0);
    SimpleSounds(es);
    WithoutEndings(EMPTY, BLANK, Seen(false, false, false), es);
  }

  lemma {:induction false} NoCuts(es: seq<Element>, from: nat)
    requires NoEndings(es) && from <= |es|
    ensures Find(es, FirstEndings, from) == None
    decreases |es| - from
  {
    if from < |es| {
      NoCuts(es, from + 1);
    }
  }

  // -------------------------------------------------- the signs of a voice

  /** Where a reader of the signs stands: in a section without a `|:`, with or
      without music so far; after a `|:`; in a section that has an ending, with
      or without a double bar after it. */
  datatype Place = Bare(sounded: bool) | Opened | Ended(over: bool)

  function Onward(p: Place, e: Element): Place {
    if !e.ABar? then (if p.Bare? || p == Ended(true) then Bare(true) else p)
    else if e.bar.RepeatStart? || e.bar.RepeatBoth? then Opened
    else if e.bar.RepeatEnd? then (if p.Ended? then Ended(false) else Bare(false))
    else if IsEnding(e.bar) then Ended(false)
    else if IsDouble(e.bar) then (match p case Bare(_) => Bare(false) case Opened => p case Ended(_) => Ended(true))
    else p
  }

  /** A sign in its voice. A closing sign inside an ending is tight if nothing
      sounds between it and the next ending marker, as in `:|[2`. A `Double`
      stands for any double bar that starts a section. */
  datatype Sign = Sign(bar: Bar, tight: bool)

  /** Next comes an ending marker, with nothing between that sounds or repeats. */
  predicate EndingNext(es: seq<Element>) {
    es != [] && es[0].ABar? && (IsEnding(es[0].bar) || (!IsSign(es[0].bar) && EndingNext(es[1..])))
  }

  predicate Tight(p: Place, b: Bar, rest: seq<Element>) {
    b.RepeatEnd? && p.Ended? && EndingNext(rest)
  }

  /** Is the element a sign here? A double bar is one where it starts a section;
      after an ending the section starts with the first thing that sounds. */
  predicate Marks(p: Place, e: Element) {
    if e.ABar? then IsSign(e.bar) || (IsDouble(e.bar) && p == Bare(true)) else p == Ended(true)
  }

  /** Does a section start here without a `|:`? */
  predicate Divides(p: Place, e: Element) {
    Marks(p, e) && !(e.ABar? && IsSign(e.bar))
  }

  function SignAt(p: Place, e: Element, rest: seq<Element>): Sign {
    if e.ABar? && IsSign(e.bar) then Sign(e.bar, Tight(p, e.bar, rest)) else Sign(Double, false)
  }

  /** The signs of a voice, in order. */
  function Signs(p: Place, es: seq<Element>): seq<Sign>
    decreases |es|
  {
    if es == [] then []
    else if !Marks(p, es[0]) then Signs(Onward(p, es[0]), es[1..])
    else [SignAt(p, es[0], es[1..])] + Signs(Onward(p, es[0]), es[1..])
  }

  const TOP := Bare(false)

  predicate IsLater(b: Bar) {
    b.SecondEnding? || b.NthEnding?
  }

  predicate HasLater(ss: seq<Sign>) {
    ss != [] && (IsLater(ss[0].bar) || HasLater(ss[1..]))
  }

  /** A first ending with a later one after it: the program cuts the voice. */
  predicate HasEnded(ss: seq<Sign>) {
    ss != [] && ((ss[0].bar.FirstEnding? && HasLater(ss[1..])) || HasEnded(ss[1..]))
  }

  /** What the simple loop plays as written. `known`: the section's start is
      known to the loop; n: the passes of the ending being read, 0 in none.
      Endings must be for one pass and stand last in their section. A section
      that starts at a double bar is not known. */
  predicate LoopOk(known: bool, n: nat, ss: seq<Sign>)
    decreases |ss|
  {
    if ss == [] then n <= 1
    else match ss[0].bar
      case RepeatStart => n <= 1 && LoopOk(true, 0, ss[1..])
      case RepeatEnd => n == 0 && known && LoopOk(false, 0, ss[1..])
      case RepeatBoth => n == 0 && known && LoopOk(true, 0, ss[1..])
      case b => if IsEnding(b) then n == 0 && LoopOk(known, Passes(b), ss[1..]) else n <= 1 && LoopOk(false, 0, ss[1..])
  }

  /** What is played as written in one go: no closing sign, and endings of one
      pass that stand last in their section. */
  predicate OnceOk(n: nat, ss: seq<Sign>)
    decreases |ss|
  {
    if ss == [] then n <= 1
    else match ss[0].bar
      case RepeatStart => n <= 1 && OnceOk(0, ss[1..])
      case Double => n <= 1 && OnceOk(0, ss[1..])
      case b => IsEnding(b) && n == 0 && OnceOk(Passes(b), ss[1..])
  }

  /** After the first ending: a later ending, at once or after a tight closing
      sign, and nothing more to go back for. */
  predicate FirstOk(ss: seq<Sign>) {
    ss != [] &&
    if IsLater(ss[0].bar) then OnceOk(Passes(ss[0].bar), ss[1..])
    else ss[0].bar.RepeatEnd? && ss[0].tight && |ss| > 1 && IsLater(ss[1].bar) && OnceOk(Passes(ss[1].bar), ss[2..])
  }

  /** Up to the first ending, whose section must start at a `|:` or at the top. */
  predicate CutOk(known: bool, n: nat, ss: seq<Sign>)
    decreases |ss|
  {
    ss != [] &&
    match ss[0].bar
    case RepeatStart => n <= 1 && CutOk(true, 0, ss[1..])
    case Double => n <= 1 && CutOk(false, 0, ss[1..])
    case FirstEnding => n == 0 && known && FirstOk(ss[1..])
    case b => IsEnding(b) && n == 0 && CutOk(known, Passes(b), ss[1..])
  }

  /** The signs a voice may have to be played as written. */
  predicate Playable(ss: seq<Sign>) {
    if HasEnded(ss) then CutOk(true, 0, ss) else LoopOk(true, 0, ss)
  }

  // ------------------------------------------- playable means as written

  /** The mode of a reading, in terms of the place and the ending being read. */
  ghost predicate InMode(s: Score, p: Place, n: nat) {
    match p
    case Bare(sounded) => n == 0 && s.mode == Plain(false) && (sounded <==> s.common != [])
    case Opened => n == 0 && s.mode == Plain(true)
    case Ended(over) => n > 0 && s.mode.InEnding? && s.mode.passes == n && s.mode.over == over
  }

  lemma {:induction false} InModeValid(s: Score, p: Place, n: nat)
    requires InMode(s, p, n)
    ensures s.Valid() && (Over(s) <==> p == Ended(true)) && (p.Ended? <==> n > 0)
  {
  }

  /** Tape and reading are level; `before` is what a closing sign would replay
      besides the section. */
  ghost predicate Level(t: Tape, s: Score, before: seq<Element>, p: Place, n: nat) {
    && InMode(s, p, n) && t.out == Heard(s)
    && (if t.open then t.section == before + (s.common + s.Body()) else before == s.played)
  }

  lemma {:induction false} NothingOwed(s: Score, p: Place, n: nat)
    requires InMode(s, p, n) && n <= 1
    ensures s.Valid() && Owed(s) == [] && Finished(s) == Heard(s)
  {
    FinishedIs(s);
    NothingMore(Heard(s));
  }

  /** An element that is no sign leaves the mode, and is added as it sounds. */
  lemma {:induction false} ModeGoesOn(s: Score, p: Place, n: nat, e: Element)
    requires InMode(s, p, n) && !Marks(p, e)
    ensures InMode(Read(s, e), Onward(p, e), n) && Adds(s, e) == if e.ABar? then [] else [e]
    ensures Read(s, e).played == s.played
    ensures Read(s, e).common + Read(s, e).Body() == s.common + s.Body() + Adds(s, e)
    ensures Read(s, e).common == if e.ABar? || n > 0 then s.common else s.common + [e]
  {
    NothingMore(s.common);
    NothingMore(s.played);
    NothingMore(s.common + s.Body());
    if !e.ABar? {
      Associate(s.common, s.Body(), [e]);
      NothingMore(s.common + [e]);
    } else if IsDouble(e.bar) && p.Bare? {
      assert s.played + s.common == s.played;
    }
  }

  lemma {:induction false} LevelSound(t: Tape, s: Score, before: seq<Element>, p: Place, n: nat, e: Element)
    requires Level(t, s, before, p, n) && !Marks(p, e)
    ensures Level(Wind(t, e), Read(s, e), before, Onward(p, e), n)
  {
    ModeGoesOn(s, p, n, e);
    ReadAdds(s, e);
    NothingMore(t.section);
    NothingMore(t.out);
    Associate(before, s.common + s.Body(), Adds(s, e));
  }

  lemma {:induction false} LevelOpen(t: Tape, s: Score, before: seq<Element>, p: Place, n: nat)
    requires Level(t, s, before, p, n) && n <= 1
    ensures Level(Wind(t, ABar(RepeatStart)), Read(s, ABar(RepeatStart)), [], Opened, 0)
  {
    NothingOwed(s, p, n);
    ReadAdds(s, ABar(RepeatStart));
    NothingMore(t.out);
    NothingMore([]);
  }

  /** What a closing sign would replay, once a section has started here. */
  function Left(t: Tape, s: Score, before: seq<Element>): seq<Element> {
    if t.open then before + (s.common + s.Body()) else Heard(s)
  }

  lemma {:induction false} LevelDivide(t: Tape, s: Score, before: seq<Element>, p: Place, n: nat, e: Element)
    requires Level(t, s, before, p, n) && n <= 1 && Divides(p, e)
    ensures Level(Wind(t, e), Read(s, e), Left(t, s, before), Onward(p, e), 0)
  {
    NothingOwed(s, p, n);
    ReadAdds(s, e);
    NothingMore(t.out);
    NothingMore(t.section);
    if e.ABar? {
      assert s.played + s.common + [] == s.played + s.common;
    } else {
      NothingMore([e]);
      assert [] + [e] == [e];
    }
  }

  lemma {:induction false} LevelClose(t: Tape, s: Score, p: Place, b: Bar)
    requires Level(t, s, [], p, 0) && (b.RepeatEnd? || b.RepeatBoth?)
    ensures var t', s' := Wind(t, ABar(b)), Read(s, ABar(b));
            Level(t', s', if b.RepeatEnd? then s'.played else [], if b.RepeatEnd? then Bare(false) else Opened, 0)
  {
    ReadAdds(s, ABar(b));
    NothingMore(s.common);
    NothingMore(s.played + s.common);
    assert [] + s.common == s.common;
    assert Again(t) == s.common;
  }

  lemma {:induction false} LevelEnding(t: Tape, s: Score, before: seq<Element>, p: Place, b: Bar)
    requires Level(t, s, before, p, 0) && IsEnding(b)
    ensures Level(Wind(t, ABar(b)), Read(s, ABar(b)), before, Ended(false), Passes(b))
  {
    ReadAdds(s, ABar(b));
    NothingMore(t.out);
    NothingMore(t.section);
  }

  lemma {:induction false} LoopPlays(t: Tape, s: Score, before: seq<Element>, known: bool, p: Place, n: nat,
                                     es: seq<Element>)
    requires Level(t, s, before, p, n) && (known ==> before == []) && LoopOk(known, n, Signs(p, es))
    ensures WindAll(t, es).out == Finished(ReadAll(s, es))
    decreases |es|
  {
    if es == [] {
      NothingOwed(s, p, n);
    } else {
      var e, t', s', p' := es[0], Wind(t, es[0]), Read(s, es[0]), Onward(p, es[0]);
      if !Marks(p, e) {
        LevelSound(t, s, before, p, n, e);
        LoopPlays(t', s', before, known, p', n, es[1..]);
      } else {
        var ss := Signs(p, es);
        assert ss[0] == SignAt(p, e, es[1..]) && ss[1..] == Signs(p', es[1..]);
        if Divides(p, e) {
          LevelDivide(t, s, before, p, n, e);
          LoopPlays(t', s', Left(t, s, before), false, p', 0, es[1..]);
        } else if e.bar.RepeatStart? {
          LevelOpen(t, s, before, p, n);
          LoopPlays(t', s', [], true, p', 0, es[1..]);
        } else if IsEnding(e.bar) {
          LevelEnding(t, s, before, p, e.bar);
          LoopPlays(t', s', before, known, p', Passes(e.bar), es[1..]);
        } else {
          LevelClose(t, s, p, e.bar);
          LoopPlays(t', s', if e.bar.RepeatEnd? then s'.played else [], e.bar.RepeatBoth?, p', 0, es[1..]);
        }
      }
    }
  }

  predicate Past(c: Cutting) {
    c.InSecond? || c.Rest?
  }

  lemma {:induction false} PastStays(c: Cutting, e: Element)
    requires Past(c)
    ensures Past(Snip(c, e)) && CutAdds(c, e) == if e.ABar? then [] else [e]
  {
  }

  lemma {:induction false} SoundEqual(c: Cutting, s: Score, p: Place, n: nat, e: Element)
    requires InMode(s, p, n) && CutHeard(c) == Heard(s) && !Marks(p, e) && !c.Closed?
    ensures InMode(Read(s, e), Onward(p, e), n) && CutHeard(Snip(c, e)) == Heard(Read(s, e))
  {
    ModeGoesOn(s, p, n, e);
    ReadAdds(s, e);
    CutStepAdds(c, e);
  }

  /** The signs that replay nothing: one that starts a section after at most one
      pass, or an ending in a section without one. */
  predicate Quiet(p: Place, n: nat, e: Element) {
    Marks(p, e) && if Divides(p, e) || e.bar.RepeatStart? then n <= 1 else IsEnding(e.bar) && n == 0
  }

  /** The passes of the ending being read after such a sign. */
  function PassesAfter(p: Place, e: Element): nat
    requires Marks(p, e)
  {
    if !Divides(p, e) && IsEnding(e.bar) then Passes(e.bar) else 0
  }

  lemma {:induction false} QuietSign(s: Score, p: Place, n: nat, e: Element)
    requires InMode(s, p, n) && Quiet(p, n, e)
    ensures InMode(Read(s, e), Onward(p, e), PassesAfter(p, e))
    ensures Heard(Read(s, e)) == Heard(s) + if e.ABar? then [] else [e]
  {
    NothingOwed(s, p, n);
    ReadAdds(s, e);
    NothingMore(Heard(s));
    assert [] + [e] == [e];
  }

  lemma {:induction false} OncePlays(c: Cutting, s: Score, p: Place, n: nat, es: seq<Element>)
    requires Past(c) && InMode(s, p, n) && CutHeard(c) == Heard(s) && OnceOk(n, Signs(p, es))
    ensures Past(CutAll(c, es)) && CutHeard(CutAll(c, es)) == Finished(ReadAll(s, es))
    decreases |es|
  {
    if es == [] {
      NothingOwed(s, p, n);
    } else {
      var e, p' := es[0], Onward(p, es[0]);
      PastStays(c, e);
      if !Marks(p, e) {
        SoundEqual(c, s, p, n, e);
        OncePlays(Snip(c, e), Read(s, e), p', n, es[1..]);
      } else {
        var ss := Signs(p, es);
        assert ss[0] == SignAt(p, e, es[1..]) && ss[1..] == Signs(p', es[1..]);
        QuietSign(s, p, n, e);
        CutStepAdds(c, e);
        OncePlays(Snip(c, e), Read(s, e), p', PassesAfter(p, e), es[1..]);
      }
    }
  }

  /** Past the first ending and a tight closing sign: the next sign is an ending. */
  lemma {:induction false} ClosedPlays(c: Cutting, s: Score, p: Place, es: seq<Element>)
    requires c.Closed? && s.mode.Back? && s.mode.body == [] && p.Ended? && CutHeard(c) == Heard(s) && EndingNext(es)
    requires var ss := Signs(p, es); ss != [] && IsLater(ss[0].bar) && OnceOk(Passes(ss[0].bar), ss[1..])
    ensures Past(CutAll(c, es)) && CutHeard(CutAll(c, es)) == Finished(ReadAll(s, es))
    decreases |es|
  {
    var e, p' := es[0], Onward(p, es[0]);
    ReadAdds(s, e);
    CutStepAdds(c, e);
    NothingMore(CutHeard(c));
    if IsEnding(e.bar) {
      assert Signs(p, es)[1..] == Signs(p', es[1..]);
      OncePlays(Snip(c, e), Read(s, e), p', Passes(e.bar), es[1..]);
    } else {
      ClosedPlays(Snip(c, e), Read(s, e), p', es[1..]);
    }
  }

  lemma {:induction false} FirstPlays(c: Cutting, s: Score, p: Place, es: seq<Element>)
    requires FirstLevel(c, s, p) && FirstOk(Signs(p, es))
    ensures Past(CutAll(c, es)) && CutHeard(CutAll(c, es)) == Finished(ReadAll(s, es))
    decreases |es|
  {
    var e := es[0];
    if !Marks(p, e) {
      SoundEqual(c, s, p, 1, e);
      ModeGoesOn(s, p, 1, e);
      FirstPlays(Snip(c, e), Read(s, e), Onward(p, e), es[1..]);
    } else {
      PassPlays(c, s, p, es);
    }
  }

  /** The first pass ends. */
  lemma {:induction false} PassPlays(c: Cutting, s: Score, p: Place, es: seq<Element>)
    requires es != [] && Marks(p, es[0]) && FirstLevel(c, s, p) && FirstOk(Signs(p, es))
    ensures Past(CutAll(c, es)) && CutHeard(CutAll(c, es)) == Finished(ReadAll(s, es))
  {
    var e, p', ss := es[0], Onward(p, es[0]), Signs(p, es);
    assert ss[0] == SignAt(p, e, es[1..]) && ss[1..] == Signs(p', es[1..]);
    NothingOwed(s, p, 1);
    ReadAdds(s, e);
    CutStepAdds(c, e);
    assert [] + s.common == s.common;
    if IsLater(e.bar) {
      OncePlays(Snip(c, e), Read(s, e), p', Passes(e.bar), es[1..]);
    } else {
      assert ss[1] == ss[1..][0] && ss[2..] == ss[1..][1..];
      ClosedPlays(Snip(c, e), Read(s, e), p', es[1..]);
    }
  }

  ghost predicate SeekLevel(c: Cutting, s: Score, before: seq<Element>, p: Place, n: nat) {
    c.Seek? && InMode(s, p, n) && CutHeard(c) == Heard(s) && (n == 0 ==> Sounding(c.common) == before + s.common)
  }

  ghost predicate FirstLevel(c: Cutting, s: Score, p: Place) {
    c.InFirst? && InMode(s, p, 1) && CutHeard(c) == Heard(s) && Sounding(c.common) == s.common
  }

  lemma {:induction false} SeekSound(c: Cutting, s: Score, before: seq<Element>, p: Place, n: nat, e: Element)
    requires SeekLevel(c, s, before, p, n) && !Marks(p, e)
    ensures SeekLevel(Snip(c, e), Read(s, e), before, Onward(p, e), n)
  {
    SoundEqual(c, s, p, n, e);
    ModeGoesOn(s, p, n, e);
    SoundingConcat(c.common, [e]);
    SoundingOne(e);
    NothingMore(Sounding(c.common));
    Associate(before, s.common, [e]);
  }

  /** What the cut has besides the section, after a sign that replays nothing. */
  function Before(c: Cutting, before: seq<Element>, p: Place, e: Element): seq<Element>
    requires c.Seek?
  {
    if !Divides(p, e) then (if RepeatStarts.Hit(e) then [] else before) else Sounding(c.common)
  }

  lemma {:induction false} SeekSign(c: Cutting, s: Score, before: seq<Element>, p: Place, n: nat, e: Element)
    requires SeekLevel(c, s, before, p, n) && Quiet(p, n, e) && !FirstEndings.Hit(e)
    ensures SeekLevel(Snip(c, e), Read(s, e), Before(c, before, p, e), Onward(p, e), PassesAfter(p, e))
  {
    QuietSign(s, p, n, e);
    CutStepAdds(c, e);
    SoundingConcat(c.common, [e]);
    SoundingOne(e);
    NothingMore(Sounding(c.common));
    NothingMore([]);
  }

  lemma {:induction false} SeekFirst(c: Cutting, s: Score, before: seq<Element>, p: Place, e: Element)
    requires SeekLevel(c, s, before, p, 0) && FirstEndings.Hit(e)
    ensures before == [] ==> FirstLevel(Snip(c, e), Read(s, e), Onward(p, e))
    ensures InMode(Read(s, e), Ended(false), 1) && CutHeard(Snip(c, e)) == Heard(Read(s, e))
            && Read(s, e).common == s.common
  {
    QuietSign(s, p, 0, e);
    CutStepAdds(c, e);
    NothingMore(CutHeard(c));
    assert [] + s.common == s.common;
  }

  lemma {:induction false} SeekPlays(c: Cutting, s: Score, before: seq<Element>, known: bool, p: Place, n: nat,
                                     es: seq<Element>)
    requires SeekLevel(c, s, before, p, n) && (known && n == 0 ==> before == []) && CutOk(known, n, Signs(p, es))
    ensures Past(CutAll(c, es)) && CutHeard(CutAll(c, es)) == Finished(ReadAll(s, es))
    decreases |es|
  {
    var e, p' := es[0], Onward(p, es[0]);
    if !Marks(p, e) {
      SeekSound(c, s, before, p, n, e);
      SeekPlays(Snip(c, e), Read(s, e), before, known, p', n, es[1..]);
    } else {
      var ss := Signs(p, es);
      assert ss[0] == SignAt(p, e, es[1..]) && ss[1..] == Signs(p', es[1..]);
      if FirstEndings.Hit(e) {
        SeekFirst(c, s, before, p, e);
        FirstPlays(Snip(c, e), Read(s, e), p', es[1..]);
      } else {
        SeekSign(c, s, before, p, n, e);
        var known' := if Divides(p, e) then false else e.bar.RepeatStart? || known;
        SeekPlays(Snip(c, e), Read(s, e), Before(c, before, p, e), known', p', PassesAfter(p, e), es[1..]);
      }
    }
  }

  // ------------------------------------- which of the two the program does

  lemma {:induction false} LaterIsPast(c: Cutting, p: Place, es: seq<Element>)
    requires c.InFirst? || c.Closed?
    ensures Past(CutAll(c, es)) <==> HasLater(Signs(p, es))
    decreases |es|
  {
    if es != [] {
      var e, p' := es[0], Onward(p, es[0]);
      assert Marks(p, e) ==> Signs(p, es)[1..] == Signs(p', es[1..]);
      if e.ABar? && IsLater(e.bar) {
        PastForGood(Snip(c, e), es[1..]);
      } else {
        LaterIsPast(Snip(c, e), p', es[1..]);
      }
    }
  }

  lemma {:induction false} PastForGood(c: Cutting, es: seq<Element>)
    requires Past(c)
    ensures Past(CutAll(c, es))
    decreases |es|
  {
    if es != [] {
      PastForGood(Snip(c, es[0]), es[1..]);
    }
  }

  lemma {:induction false} EndedIsLater(ss: seq<Sign>)
    requires HasEnded(ss)
    ensures HasLater(ss)
  {
    if !(ss[0].bar.FirstEnding? && HasLater(ss[1..])) {
      EndedIsLater(ss[1..]);
    }
  }

  lemma {:induction false} EndedIsPast(c: Cutting, p: Place, es: seq<Element>)
    requires c.Seek?
    ensures Past(CutAll(c, es)) <==> HasEnded(Signs(p, es))
    decreases |es|
  {
    if es != [] {
      var e, p' := es[0], Onward(p, es[0]);
      assert Marks(p, e) ==> Signs(p, es)[1..] == Signs(p', es[1..]);
      if FirstEndings.Hit(e) {
        LaterIsPast(Snip(c, e), p', es[1..]);
        if HasEnded(Signs(p', es[1..])) {
          EndedIsLater(Signs(p', es[1..]));
        }
      } else {
        EndedIsPast(Snip(c, e), p', es[1..]);
      }
    }
  }

  /** What the program plays, as the reader from left to right hears it. */
  lemma {:induction false} ProgramSounds(es: seq<Element>)
    ensures Sounding(ExpandRepeats(es)) ==
            if HasEnded(Signs(TOP, es)) then CutHeard(CutAll(Seek([], []), es)) else WindAll(EMPTY, es).out
  {
    EndedIsPast(Seek([], []), TOP, es);
    CutIsSearch(es);
    var c := CutAll(Seek([], []), es);
    if Past(c) {
      JoinedSounds(c);
    } else {
      SimpleSounds(es);
    }
  }

  /** A voice with playable signs is played as written. */
  lemma {:induction false} PlayableIsAsWritten(es: seq<Element>)
    requires Playable(Signs(TOP, es))
    ensures AsWritten(es)
  {
    ProgramSounds(es);
    NothingMore([]);
    if HasEnded(Signs(TOP, es)) {
      SeekPlays(Seek([], []), BLANK, [], true, TOP, 0, es);
    } else {
      LoopPlays(EMPTY, BLANK, [], true, TOP, 0, es);
    }
  }

  // --------------------------------- other signs are not played as written

  /** Something sounds between any two signs, before the first and after the
      last, except in a tight pair. `sounded`: something sounded since the last
      sign; `tight`: that sign was a tight one. */
  predicate Voiced(p: Place, sounded: bool, tight: bool, es: seq<Element>)
    decreases |es|
  {
    if es == [] then sounded
    else
      && (Marks(p, es[0]) ==> sounded || (tight && es[0].ABar? && IsEnding(es[0].bar)))
      && Voiced(Onward(p, es[0]), SoundedAfter(p, sounded, es[0]), TightAfter(p, tight, es[0], es[1..]), es[1..])
  }

  predicate SoundedAfter(p: Place, sounded: bool, e: Element) {
    !e.ABar? || (!Marks(p, e) && sounded)
  }

  predicate TightAfter(p: Place, tight: bool, e: Element, rest: seq<Element>) {
    e.ABar? && if Marks(p, e) then SignAt(p, e, rest).tight else tight
  }

  /** No element that sounds stands twice in the voice. */
  predicate Distinct(es: seq<Element>) {
    es == [] || ((es[0].ABar? || es[0] !in es[1..]) && Distinct(es[1..]))
  }

  ghost predicate Gone(xs: seq<Element>, es: seq<Element>) {
    forall x :: x in xs ==> x !in es
  }

  /** Two outputs that differ at a place both have reached. */
  ghost predicate Apart(a: seq<Element>, b: seq<Element>) {
    exists i :: 0 <= i < |a| && i < |b| && a[i] != b[i]
  }

  lemma {:induction false} ApartStays(a: seq<Element>, b: seq<Element>, a': seq<Element>, b': seq<Element>)
    requires Apart(a, b) && a <= a' && b <= b'
    ensures a' != b'
  {
    var i :| 0 <= i < |a| && i < |b| && a[i] != b[i];
    assert a'[i] == a[i] && b'[i] == b[i];
  }

  /** Unequal outputs part for good at the next new element. */
  lemma {:induction false} NewNoteParts(a: seq<Element>, b: seq<Element>, e: Element)
    requires a != b && e !in a && e !in b
    ensures Apart(a + [e], b + [e])
  {
    var a', b' := a + [e], b + [e];
    if |a| < |b| {
      assert a'[|a|] == e && b'[|a|] == b[|a|] && b[|a|] in b;
    } else if |b| < |a| {
      assert b'[|b|] == e && a'[|b|] == a[|b|] && a[|b|] in a;
    } else {
      var i :| 0 <= i < |a| && a[i] != b[i];
      assert a'[i] != b'[i];
    }
  }

  lemma {:induction false} TimesHas(n: nat, s: seq<Element>)
    ensures forall x :: x in Times(n, s) ==> x in s
    ensures n >= 1 && s != [] ==> Times(n, s) != [] && Times(n, s)[0] == s[0]
  {
    if n > 0 {
      TimesHas(n - 1, s);
    }
  }

  /** A sign replays only what was heard. */
  lemma {:induction false} OwedHas(s: Score)
    requires s.Valid()
    ensures forall x :: x in Owed(s) ==> x in s.common + s.Body()
    ensures s.mode.InEnding? && s.mode.passes >= 2 && s.common != [] ==> Owed(s) != [] && Owed(s)[0] == s.common[0]
    ensures forall x :: x in s.common + s.Body() ==> x in Heard(s)
  {
    if s.mode.InEnding? {
      TimesHas(s.mode.passes - 1, s.common + s.mode.body);
    }
  }

  lemma {:induction false} HeardGone(s: Score, es: seq<Element>)
    requires s.Valid() && es != [] && Gone(Heard(s), es) && Distinct(es)
    ensures Gone(Heard(Read(s, es[0])), es[1..])
  {
    ReadAdds(s, es[0]);
    OwedHas(s);
    forall x | x in Heard(Read(s, es[0]))
      ensures x !in es[1..]
    {
      assert x in Heard(s) || x in Adds(s, es[0]);
      if x in Adds(s, es[0]) && x != es[0] {
        assert x in Owed(s) || x in s.common;
        assert x in s.common + s.Body();
      }
    }
  }

  lemma {:induction false} TapeGone(t: Tape, es: seq<Element>)
    requires es != [] && Gone(t.out, es) && Distinct(es) && (t.open ==> forall x :: x in t.section ==> x in t.out)
    ensures Gone(Wind(t, es[0]).out, es[1..])
  {
  }

  ghost predicate Placed(s: Score, p: Place) {
    !s.mode.Plain? ==> p == Ended(s.mode.over)
  }

  // The simple loop.

  lemma {:induction false} LoopApart(t: Tape, s: Score, p: Place, tight: bool, es: seq<Element>)
    requires s.Valid() && Placed(s, p) && t.out != Heard(s)
    requires Gone(t.out, es) && Gone(Heard(s), es) && Distinct(es)
    requires Voiced(p, false, tight, es) && (tight ==> s.mode.Back?)
    ensures WindAll(t, es).out != Finished(ReadAll(s, es))
    decreases |es|
  {
    var e, t', s' := es[0], Wind(t, es[0]), Read(s, es[0]);
    ReadAdds(s, e);
    if !e.ABar? {
      NewNoteParts(t.out, Heard(s), e);
      TapeIsKept(t', es[1..]);
      HeardIsKept(s', es[1..]);
      ApartStays(t'.out, Heard(s'), WindAll(t', es[1..]).out, Finished(ReadAll(s', es[1..])));
    } else {
      NothingMore(t.out);
      NothingMore(Heard(s));
      LoopApart(t', s', Onward(p, e), TightAfter(p, tight, e, es[1..]), es[1..]);
    }
  }

  /** Level, in a voiced score: what a sign could replay is there to be replayed. */
  ghost predicate LoopFit(t: Tape, s: Score, before: seq<Element>, known: bool, p: Place, n: nat, sounded: bool) {
    && Level(t, s, before, p, n) && Replays(s, n, sounded) && (known <==> before == [])
    && (forall x :: x in before ==> x in s.played) && forall x :: x in s.common ==> x !in s.played
  }

  ghost predicate Replays(s: Score, n: nat, sounded: bool) {
    && (n > 0 || sounded ==> s.common != [])
    && (n > 0 && sounded ==> s.Body() != [])
  }

  lemma {:induction false} ReplaysOn(s: Score, p: Place, n: nat, sounded: bool, e: Element)
    requires InMode(s, p, n) && Replays(s, n, sounded) && !Marks(p, e)
    ensures Replays(Read(s, e), n, SoundedAfter(p, sounded, e))
  {
    NothingMore(s.played);
  }

  lemma {:induction false} LoopFitSound(t: Tape, s: Score, before: seq<Element>, known: bool, p: Place, n: nat,
                                        sounded: bool, es: seq<Element>)
    requires es != [] && LoopFit(t, s, before, known, p, n, sounded) && !Marks(p, es[0]) && Gone(t.out, es)
    ensures LoopFit(Wind(t, es[0]), Read(s, es[0]), before, known, Onward(p, es[0]), n, SoundedAfter(p, sounded, es[0]))
  {
    LevelSound(t, s, before, p, n, es[0]);
    ModeGoesOn(s, p, n, es[0]);
    ReplaysOn(s, p, n, sounded, es[0]);
    assert forall x :: x in s.played ==> x in Heard(s);
    assert es[0] in es;
  }

  /** What a closing sign would replay was heard. */
  lemma {:induction false} SectionHeard(t: Tape, s: Score, before: seq<Element>, known: bool, p: Place, n: nat,
                                        sounded: bool)
    requires LoopFit(t, s, before, known, p, n, sounded)
    ensures t.open ==> forall x :: x in t.section ==> x in t.out
  {
    InModeValid(s, p, n);
    OwedHas(s);
    assert forall x :: x in s.played ==> x in Heard(s);
  }

  /** A sign the loop may not have makes the outputs unequal at once. */
  lemma {:induction false} LoopParts(t: Tape, s: Score, before: seq<Element>, known: bool, p: Place, n: nat, e: Element)
    requires LoopFit(t, s, before, known, p, n, true) && Marks(p, e) && e.ABar? && !Quiet(p, n, e)
    requires Closes(e) ==> n >= 1 || !known
    ensures Wind(t, e).out != Heard(Read(s, e))
  {
    InModeValid(s, p, n);
    ReadAdds(s, e);
    OwedHas(s);
    NothingMore(t.out);
    if Closes(e) {
      if n >= 1 {
        CloseParts(t, s, before, known, p, n);
      } else {
        assert Again(t) == before + (s.common + s.Body()) || Again(t) == s.played + s.common + s.Body();
        assert |Again(t)| > |Owed(s) + s.common|;
      }
    }
  }

  lemma {:induction false} CloseParts(t: Tape, s: Score, before: seq<Element>, known: bool, p: Place, n: nat)
    requires LoopFit(t, s, before, known, p, n, true) && n >= 1
    ensures s.Valid() && Heard(s) + Again(t) != Heard(s) + (Owed(s) + s.common)
  {
    OwedHas(s);
    Associate(s.played, s.common, s.Body());
    var a, b := Again(t), Owed(s) + s.common;
    assert a == before + (s.common + s.Body());
    assert b != [] && b[0] == s.common[0];
    assert a != b by {
      if before == [] {
        assert a == s.common + s.Body();
        if n >= 2 {
          assert Owed(s) == (s.common + s.Body()) + Times(n - 2, s.common + s.Body());
        }
        assert |a| != |b|;
      } else {
        assert a[0] == before[0] && s.common[0] in s.common && before[0] in before;
      }
    }
    SameHead(Heard(s), a, b);
  }

  lemma {:induction false} SameHead(h: seq<Element>, a: seq<Element>, b: seq<Element>)
    ensures h + a == h + b <==> a == b
  {
    assert (h + a)[|h|..] == a && (h + b)[|h|..] == b;
  }

  lemma {:induction false} LoopFails(t: Tape, s: Score, before: seq<Element>, known: bool, p: Place, n: nat,
                                     sounded: bool, es: seq<Element>)
    requires LoopFit(t, s, before, known, p, n, sounded) && Gone(t.out, es) && Distinct(es)
             && Voiced(p, sounded, false, es)
    requires !LoopOk(known, n, Signs(p, es))
    ensures WindAll(t, es).out != Finished(ReadAll(s, es))
    decreases |es|
  {
    InModeValid(s, p, n);
    if es == [] {
      FinishedIs(s);
      OwedHas(s);
    } else {
      SectionHeard(t, s, before, known, p, n, sounded);
      TapeGone(t, es);
      if !Marks(p, es[0]) {
        LoopFitSound(t, s, before, known, p, n, sounded, es);
        LoopFails(Wind(t, es[0]), Read(s, es[0]), before, known, Onward(p, es[0]), n, SoundedAfter(p, sounded, es[0]),
            es[1..]);
      } else {
        LoopFailsAtSign(t, s, before, known, p, n, es);
      }
    }
  }

  /** What sounds after an ending of several passes is over: the reading has more to play first. */
  lemma {:induction false} OwedParts(s: Score, heard: seq<Element>, e: Element)
    requires s.Valid() && heard == Heard(s) && Over(s) && Owed(s) != [] && !e.ABar? && e !in Heard(s)
    ensures Apart(heard + [e], Heard(Read(s, e)))
  {
    ReadAdds(s, e);
    OwedHas(s);
    var a, b, k := heard + [e], Heard(Read(s, e)), |heard|;
    assert b == heard + (Owed(s) + [e]) && a[k] == e && b[k] == Owed(s)[0];
    assert Owed(s)[0] in Owed(s) && Owed(s)[0] in s.common + s.Body();
  }

  lemma {:induction false} LoopFailsAtSign(t: Tape, s: Score, before: seq<Element>, known: bool, p: Place, n: nat,
                                           es: seq<Element>)
    requires es != [] && Marks(p, es[0])
    requires LoopFit(t, s, before, known, p, n, true) && Gone(t.out, es) && Distinct(es) && Voiced(p, true, false, es)
    requires !LoopOk(known, n, Signs(p, es)) && Gone(Wind(t, es[0]).out, es[1..])
    ensures WindAll(t, es).out != Finished(ReadAll(s, es))
    decreases |es|, 0
  {
    var e, ss, p' := es[0], Signs(p, es), Onward(p, es[0]);
    var t', s' := Wind(t, e), Read(s, e);
    assert ss[0] == SignAt(p, e, es[1..]) && ss[1..] == Signs(p', es[1..]);
    InModeValid(s, p, n);
    if Divides(p, e) && n <= 1 {
      DivideFit(t, s, before, known, p, n, es);
      LoopFails(t', s', Left(t, s, before), false, p', 0, !e.ABar?, es[1..]);
    } else if !e.ABar? {
      OwedHas(s);
      OwedParts(s, t.out, e);
      TapeIsKept(t', es[1..]);
      ReadAdds(s, e);
      HeardIsKept(s', es[1..]);
      ApartStays(t'.out, Heard(s'), WindAll(t', es[1..]).out, Finished(ReadAll(s', es[1..])));
    } else if e.bar.RepeatStart? && n <= 1 {
      LevelOpen(t, s, before, p, n);
      LoopFails(t', s', [], true, p', 0, false, es[1..]);
    } else if IsEnding(e.bar) && n == 0 {
      LevelEnding(t, s, before, p, e.bar);
      LoopFails(t', s', before, known, p', Passes(e.bar), false, es[1..]);
    } else if Closes(e) && n == 0 && known {
      LevelClose(t, s, p, e.bar);
      LoopFails(t', s', if e.bar.RepeatEnd? then s'.played else [], e.bar.RepeatBoth?, p', 0, false, es[1..]);
    } else {
      LoopParts(t, s, before, known, p, n, e);
      HeardGone(s, es);
      ReadAdds(s, e);
      LoopApart(t', s', p', TightAfter(p, false, e, es[1..]), es[1..]);
    }
  }

  lemma {:induction false} DivideFit(t: Tape, s: Score, before: seq<Element>, known: bool, p: Place, n: nat,
                                     es: seq<Element>)
    requires es != [] && Divides(p, es[0]) && n <= 1 && LoopFit(t, s, before, known, p, n, true) && Gone(t.out, es)
    ensures LoopFit(Wind(t, es[0]), Read(s, es[0]), Left(t, s, before), false, Onward(p, es[0]), 0, !es[0].ABar?)
  {
    LevelDivide(t, s, before, p, n, es[0]);
    NothingOwed(s, p, n);
    NothingMore(s.played + s.common);
    assert es[0] in es;
  }

  // The cut.

  lemma {:induction false} CutPartsForGood(c: Cutting, s: Score, es: seq<Element>)
    requires s.Valid() && Apart(CutHeard(c), Heard(s))
    ensures CutHeard(CutAll(c, es)) != Finished(ReadAll(s, es))
  {
    CutIsKept(c, es);
    HeardIsKept(s, es);
    ApartStays(CutHeard(c), Heard(s), CutHeard(CutAll(c, es)), Finished(ReadAll(s, es)));
  }

  lemma {:induction false} CutApart(c: Cutting, s: Score, p: Place, tight: bool, es: seq<Element>)
    requires s.Valid() && Placed(s, p) && CutHeard(c) != Heard(s)
    requires Gone(CutHeard(c), es) && Gone(Heard(s), es) && Distinct(es)
    requires Voiced(p, false, tight, es) && !c.Closed? && (tight ==> s.mode.Back? && !c.InFirst?)
    ensures CutHeard(CutAll(c, es)) != Finished(ReadAll(s, es))
    decreases |es|
  {
    var e, c', s' := es[0], Snip(c, es[0]), Read(s, es[0]);
    ReadAdds(s, e);
    CutStepAdds(c, e);
    if !e.ABar? {
      NewNoteParts(CutHeard(c), Heard(s), e);
      CutPartsForGood(c', s', es[1..]);
    } else {
      NothingMore(CutHeard(c));
      NothingMore(Heard(s));
      CutApart(c', s', Onward(p, e), TightAfter(p, tight, e, es[1..]), es[1..]);
    }
  }

  /** What the cut adds at a sign that is not the end of a first pass, against
      what the reading replays there. */
  lemma {:induction false} CutPartsAtSign(c: Cutting, s: Score, p: Place, n: nat, es: seq<Element>)
    requires es != [] && Marks(p, es[0]) && !Quiet(p, n, es[0]) && InMode(s, p, n) && CutHeard(c) == Heard(s)
             && Replays(s, n, true)
    requires !c.Closed? && (c.InFirst? ==> !PassEnds.Hit(es[0])) && Gone(Heard(s), es) && Distinct(es)
             && Voiced(p, true, false, es)
    ensures CutHeard(CutAll(c, es)) != Finished(ReadAll(s, es))
  {
    var e, c', s' := es[0], Snip(c, es[0]), Read(s, es[0]);
    InModeValid(s, p, n);
    ReadAdds(s, e);
    OwedHas(s);
    CutStepAdds(c, e);
    NothingMore(CutHeard(c));
    HeardGone(s, es);
    if e.ABar? {
      CutApart(c', s', Onward(p, e), TightAfter(p, false, e, es[1..]), es[1..]);
    } else {
      OwedParts(s, CutHeard(c), e);
      CutPartsForGood(c', s', es[1..]);
    }
  }

  lemma {:induction false} OnceFails(c: Cutting, s: Score, p: Place, n: nat, sounded: bool, es: seq<Element>)
    requires Past(c) && InMode(s, p, n) && CutHeard(c) == Heard(s) && Replays(s, n, sounded)
    requires Gone(Heard(s), es) && Distinct(es) && Voiced(p, sounded, false, es) && !OnceOk(n, Signs(p, es))
    ensures CutHeard(CutAll(c, es)) != Finished(ReadAll(s, es))
    decreases |es|
  {
    InModeValid(s, p, n);
    if es == [] {
      FinishedIs(s);
      OwedHas(s);
    } else {
      var e, p' := es[0], Onward(p, es[0]);
      HeardGone(s, es);
      PastStays(c, e);
      if !Marks(p, e) {
        SoundEqual(c, s, p, n, e);
        ReplaysOn(s, p, n, sounded, e);
        OnceFails(Snip(c, e), Read(s, e), p', n, SoundedAfter(p, sounded, e), es[1..]);
      } else {
        var ss := Signs(p, es);
        assert ss[0] == SignAt(p, e, es[1..]) && ss[1..] == Signs(p', es[1..]);
        if Quiet(p, n, e) {
          QuietSign(s, p, n, e);
          CutStepAdds(c, e);
          OnceFails(Snip(c, e), Read(s, e), p', PassesAfter(p, e), !e.ABar?, es[1..]);
        } else {
          CutPartsAtSign(c, s, p, n, es);
        }
      }
    }
  }

  /** The cut has fallen behind: it has dropped music the reading plays. */
  lemma {:induction false} BehindFails(c: Cutting, s: Score, p: Place, sounded: bool, tight: bool, es: seq<Element>)
    requires s.Valid() && CutHeard(c) <= Heard(s) && |CutHeard(c)| < |Heard(s)|
    requires Gone(Heard(s), es) && Distinct(es) && Voiced(p, sounded, tight, es)
    requires if Past(c) then !sounded && !tight else c.Closed? && HasLater(Signs(p, es))
    ensures CutHeard(CutAll(c, es)) != Finished(ReadAll(s, es))
    decreases |es|
  {
    var e, c', s', p' := es[0], Snip(c, es[0]), Read(s, es[0]), Onward(p, es[0]);
    ReadAdds(s, e);
    CutStepAdds(c, e);
    HeardGone(s, es);
    NothingMore(CutHeard(c));
    if Past(c) && !e.ABar? {
      var k := |CutHeard(c)|;
      assert CutHeard(c')[k] == e && Heard(s')[k] == Heard(s)[k] && Heard(s)[k] in Heard(s) && e in es;
      CutPartsForGood(c', s', es[1..]);
    } else {
      assert Marks(p, e) ==> Signs(p, es)[1..] == Signs(p', es[1..]);
      BehindFails(c', s', p', SoundedAfter(p, sounded, e), TightAfter(p, tight, e, es[1..]), es[1..]);
    }
  }

  /** Past a bare closing sign with music next: the cut drops it. */
  lemma {:induction false} DropFails(c: Cutting, s: Score, p: Place, es: seq<Element>)
    requires c.Closed? && s.Valid() && CutHeard(c) == Heard(s) && Gone(Heard(s), es) && Distinct(es)
    requires Voiced(p, false, false, es) && HasLater(Signs(p, es))
    ensures CutHeard(CutAll(c, es)) != Finished(ReadAll(s, es))
    decreases |es|
  {
    var e, c', s', p' := es[0], Snip(c, es[0]), Read(s, es[0]), Onward(p, es[0]);
    ReadAdds(s, e);
    CutStepAdds(c, e);
    HeardGone(s, es);
    NothingMore(CutHeard(c));
    if e.ABar? {
      DropFails(c', s', p', es[1..]);
    } else {
      BehindFails(c', s', p', true, false, es[1..]);
    }
  }

  lemma {:induction false} TightFails(c: Cutting, s: Score, p: Place, es: seq<Element>)
    requires c.Closed? && s.mode.Back? && s.mode.body == [] && Placed(s, p) && s.common != []
    requires CutHeard(c) == Heard(s) && Gone(Heard(s), es) && Distinct(es)
    requires EndingNext(es) && Voiced(p, false, true, es) && HasLater(Signs(p, es))
    requires var ss := Signs(p, es); ss != [] ==> !(IsLater(ss[0].bar) && OnceOk(Passes(ss[0].bar), ss[1..]))
    ensures CutHeard(CutAll(c, es)) != Finished(ReadAll(s, es))
    decreases |es|
  {
    var e, c', s', p' := es[0], Snip(c, es[0]), Read(s, es[0]), Onward(p, es[0]);
    ReadAdds(s, e);
    CutStepAdds(c, e);
    HeardGone(s, es);
    NothingMore(CutHeard(c));
    if !IsEnding(e.bar) {
      TightFails(c', s', p', es[1..]);
    } else {
      assert Signs(p, es)[1..] == Signs(p', es[1..]);
      if IsLater(e.bar) {
        OnceFails(c', s', p', Passes(e.bar), false, es[1..]);
      } else {
        DropFails(c', s', p', es[1..]);
      }
    }
  }

  /** The cut goes back to more than the section, or to another one: what it
      replays at the end of the pass does not begin in the section. */
  ghost predicate Lost(c: Cutting, s: Score, p: Place, n: nat, sounded: bool) {
    && c.InFirst? && InMode(s, p, n) && CutHeard(c) == Heard(s) && Replays(s, n, sounded)
    && Sounding(c.common) != [] && Sounding(c.common)[0] !in s.common + s.Body()
  }

  lemma {:induction false} LostSound(c: Cutting, s: Score, p: Place, n: nat, sounded: bool, es: seq<Element>)
    requires es != [] && Lost(c, s, p, n, sounded) && !Marks(p, es[0])
    requires Gone(Heard(s), es) && Sounding(c.common)[0] in Heard(s)
    ensures Lost(Snip(c, es[0]), Read(s, es[0]), Onward(p, es[0]), n, SoundedAfter(p, sounded, es[0]))
  {
    SoundEqual(c, s, p, n, es[0]);
    ReplaysOn(s, p, n, sounded, es[0]);
    var x, s' := Sounding(c.common)[0], Read(s, es[0]);
    assert x !in s'.common + s'.Body() by {
      ModeGoesOn(s, p, n, es[0]);
      assert es[0] in es;
    }
  }

  /** At the end of the pass the cut replays the old common part. */
  lemma {:induction false} LostParts(c: Cutting, s: Score, p: Place, n: nat, e: Element)
    requires Lost(c, s, p, n, true) && PassEnds.Hit(e)
    ensures CutHeard(Snip(c, e)) != Heard(Read(s, e))
    ensures e.bar.RepeatEnd? ==> Apart(CutHeard(Snip(c, e)), Heard(Read(s, e)))
  {
    InModeValid(s, p, n);
    var old_, new_ := Sounding(c.common), Adds(s, e);
    ReadAdds(s, e);
    CutStepAdds(c, e);
    OwedHas(s);
    if new_ != [] {
      assert new_[0] in s.common + s.Body() by {
        assert new_ == Owed(s) + s.common;
        assert new_[0] in Owed(s) || new_[0] in s.common;
      }
      var k := |Heard(s)|;
      assert CutHeard(Snip(c, e))[k] == old_[0] && Heard(Read(s, e))[k] == new_[0];
    }
  }

  /** A sign that replays nothing leaves the cut lost. */
  lemma {:induction false} LostSign(c: Cutting, s: Score, p: Place, n: nat, es: seq<Element>)
    requires es != [] && Lost(c, s, p, n, true) && Quiet(p, n, es[0]) && !PassEnds.Hit(es[0])
    requires Gone(Heard(s), es) && Sounding(c.common)[0] in Heard(s)
    ensures Lost(Snip(c, es[0]), Read(s, es[0]), Onward(p, es[0]), PassesAfter(p, es[0]), !es[0].ABar?)
  {
    QuietSign(s, p, n, es[0]);
    CutStepAdds(c, es[0]);
    NothingMore(CutHeard(c));
    NothingMore(s.common);
    assert es[0] in es;
  }

  lemma {:induction false} LostFails(c: Cutting, s: Score, p: Place, n: nat, sounded: bool, es: seq<Element>)
    requires Lost(c, s, p, n, sounded) && Gone(Heard(s), es) && Distinct(es) && Voiced(p, sounded, false, es)
    requires HasLater(Signs(p, es)) && forall x :: x in Sounding(c.common) ==> x in Heard(s)
    ensures CutHeard(CutAll(c, es)) != Finished(ReadAll(s, es))
    decreases |es|
  {
    var e, c', s', p' := es[0], Snip(c, es[0]), Read(s, es[0]), Onward(p, es[0]);
    InModeValid(s, p, n);
    HeardGone(s, es);
    ReadAdds(s, e);
    if !Marks(p, e) {
      LostSound(c, s, p, n, sounded, es);
      LostFails(c', s', p', n, SoundedAfter(p, sounded, e), es[1..]);
    } else {
      assert Signs(p, es)[1..] == Signs(p', es[1..]);
      CutStepAdds(c, e);
      if PassEnds.Hit(e) {
        LostParts(c, s, p, n, e);
        if e.bar.RepeatEnd? {
          CutPartsForGood(c', s', es[1..]);
        } else {
          assert Gone(CutHeard(c'), es[1..]);
          CutApart(c', s', p', false, es[1..]);
        }
      } else if Quiet(p, n, e) {
        LostSign(c, s, p, n, es);
        LostFails(c', s', p', PassesAfter(p, e), !e.ABar?, es[1..]);
      } else {
        CutPartsAtSign(c, s, p, n, es);
      }
    }
  }

  lemma {:induction false} FirstFails(c: Cutting, s: Score, p: Place, sounded: bool, es: seq<Element>)
    requires FirstLevel(c, s, p) && Replays(s, 1, sounded) && Gone(Heard(s), es) && Distinct(es)
             && Voiced(p, sounded, false, es)
    requires !FirstOk(Signs(p, es)) && HasLater(Signs(p, es))
    ensures CutHeard(CutAll(c, es)) != Finished(ReadAll(s, es))
    decreases |es|
  {
    var e, c', s' := es[0], Snip(c, es[0]), Read(s, es[0]);
    HeardGone(s, es);
    if !Marks(p, e) {
      SoundEqual(c, s, p, 1, e);
      ModeGoesOn(s, p, 1, e);
      ReplaysOn(s, p, 1, sounded, e);
      FirstFails(c', s', Onward(p, e), SoundedAfter(p, sounded, e), es[1..]);
    } else {
      FirstFailsAtSign(c, s, p, es);
    }
  }

  /** A section starts inside the first ending. */
  lemma {:induction false} StartLoses(c: Cutting, s: Score, p: Place, es: seq<Element>)
    requires es != [] && FirstLevel(c, s, p) && Replays(s, 1, true) && Gone(Heard(s), es)
    requires Marks(p, es[0]) && (Divides(p, es[0]) || es[0].bar.RepeatStart?)
    ensures var c', s' := Snip(c, es[0]), Read(s, es[0]);
            && Lost(c', s', Onward(p, es[0]), 0, !es[0].ABar?) && forall x :: x in Sounding(c'.common)
                                                                              ==> x in Heard(s')
  {
    InModeValid(s, p, 1);
    QuietSign(s, p, 1, es[0]);
    CutStepAdds(c, es[0]);
    NothingMore(CutHeard(c));
    OwedHas(s);
    assert es[0] in es && s.common[0] in s.common;
  }

  lemma {:induction false} FirstFailsAtSign(c: Cutting, s: Score, p: Place, es: seq<Element>)
    requires es != [] && Marks(p, es[0])
    requires FirstLevel(c, s, p) && Replays(s, 1, true) && Gone(Heard(s), es) && Distinct(es)
             && Voiced(p, true, false, es)
    requires !FirstOk(Signs(p, es)) && HasLater(Signs(p, es)) && Gone(Heard(Read(s, es[0])), es[1..])
    ensures CutHeard(CutAll(c, es)) != Finished(ReadAll(s, es))
  {
    var e, c', s', p' := es[0], Snip(c, es[0]), Read(s, es[0]), Onward(p, es[0]);
    var ss := Signs(p, es);
    assert ss[0] == SignAt(p, e, es[1..]) && ss[1..] == Signs(p', es[1..]);
    if Divides(p, e) || e.bar.RepeatStart? {
      StartLoses(c, s, p, es);
      LostFails(c', s', p', 0, !e.ABar?, es[1..]);
    } else if PassEnds.Hit(e) {
      PassFails(c, s, p, es);
    } else {
      CutPartsAtSign(c, s, p, 1, es);
    }
  }

  /** The first pass ends, but not as it may. */
  lemma {:induction false} PassFails(c: Cutting, s: Score, p: Place, es: seq<Element>)
    requires es != [] && PassEnds.Hit(es[0])
    requires FirstLevel(c, s, p) && Replays(s, 1, true) && Gone(Heard(s), es) && Distinct(es)
             && Voiced(p, true, false, es)
    requires !FirstOk(Signs(p, es)) && HasLater(Signs(p, es)) && Gone(Heard(Read(s, es[0])), es[1..])
    ensures CutHeard(CutAll(c, es)) != Finished(ReadAll(s, es))
  {
    var e, c', s', p' := es[0], Snip(c, es[0]), Read(s, es[0]), Onward(p, es[0]);
    var ss := Signs(p, es);
    assert ss[0] == SignAt(p, e, es[1..]) && ss[1..] == Signs(p', es[1..]);
    ReadAdds(s, e);
    NothingOwed(s, p, 1);
    CutStepAdds(c, e);
    assert [] + s.common == s.common;
    if IsLater(e.bar) {
      OnceFails(c', s', p', Passes(e.bar), false, es[1..]);
    } else if Tight(p, e.bar, es[1..]) {
      assert |ss| > 1 ==> ss[1] == ss[1..][0] && ss[2..] == ss[1..][1..];
      TightFails(c', s', p', es[1..]);
    } else {
      DropFails(c', s', p', es[1..]);
    }
  }

  /** Level, looking for the first ending; what stands before the section in
      the cut's common part is not in the section. */
  ghost predicate SeekFit(c: Cutting, s: Score, before: seq<Element>, known: bool, p: Place, n: nat, sounded: bool) {
    && SeekLevel(c, s, before, p, n) && Replays(s, n, sounded) && (known <==> before == [])
        && (n > 0 ==> Sounding(c.common) != [])
    && (forall x :: x in before ==> x in s.played) && forall x :: x in s.common ==> x !in s.played
  }

  lemma {:induction false} CommonStays(c: Cutting, e: Element)
    requires c.Seek? && Sounding(c.common) != [] && !FirstEndings.Hit(e) && !RepeatStarts.Hit(e)
    ensures Snip(c, e).Seek? && Sounding(Snip(c, e).common) != []
  {
    SoundingConcat(c.common, [e]);
  }

  lemma {:induction false} SeekFitSound(c: Cutting, s: Score, before: seq<Element>, known: bool, p: Place, n: nat,
                                        sounded: bool, es: seq<Element>)
    requires es != [] && SeekFit(c, s, before, known, p, n, sounded) && !Marks(p, es[0]) && Gone(Heard(s), es)
    ensures SeekFit(Snip(c, es[0]), Read(s, es[0]), before, known, Onward(p, es[0]), n, SoundedAfter(p, sounded, es[0]))
  {
    SeekSound(c, s, before, p, n, es[0]);
    if Sounding(c.common) != [] {
      CommonStays(c, es[0]);
    }
    ModeGoesOn(s, p, n, es[0]);
    ReplaysOn(s, p, n, sounded, es[0]);
    assert forall x :: x in s.played ==> x in Heard(s);
    assert es[0] in es;
  }

  predicate KnownAfter(known: bool, p: Place, e: Element)
    requires Marks(p, e)
  {
    !Divides(p, e) && (e.bar.RepeatStart? || known)
  }

  lemma {:induction false} SeekFitSign(c: Cutting, s: Score, before: seq<Element>, known: bool, p: Place, n: nat,
                                       es: seq<Element>)
    requires es != [] && SeekFit(c, s, before, known, p, n, true) && Quiet(p, n, es[0]) && !FirstEndings.Hit(es[0])
    requires Gone(Heard(s), es) && forall x :: x in Sounding(c.common) ==> x in Heard(s)
    ensures SeekFit(Snip(c, es[0]), Read(s, es[0]), Before(c, before, p, es[0]), KnownAfter(known, p, es[0]),
                    Onward(p, es[0]), PassesAfter(p, es[0]), !es[0].ABar?)
  {
    SeekSign(c, s, before, p, n, es[0]);
    assert Sounding(c.common) != [];
    if !RepeatStarts.Hit(es[0]) {
      CommonStays(c, es[0]);
    }
    NothingOwed(s, p, n);
    NothingMore(s.played + s.common);
    assert es[0] in es;
  }

  /** A first ending whose section started at a double bar. */
  lemma {:induction false} DividedFirstFails(c: Cutting, s: Score, before: seq<Element>, p: Place, es: seq<Element>)
    requires es != [] && SeekFit(c, s, before, false, p, 0, true) && FirstEndings.Hit(es[0])
    requires Gone(Heard(s), es) && Distinct(es) && Voiced(p, true, false, es) && HasEnded(Signs(p, es))
    requires forall x :: x in Sounding(c.common) ==> x in Heard(s)
    ensures CutHeard(CutAll(c, es)) != Finished(ReadAll(s, es))
  {
    var e, c', s', p' := es[0], Snip(c, es[0]), Read(s, es[0]), Onward(p, es[0]);
    SeekFirst(c, s, before, p, e);
    HeardGone(s, es);
    var ss := Signs(p, es);
    assert ss[1..] == Signs(p', es[1..]);
    if HasEnded(ss[1..]) {
      EndedIsLater(ss[1..]);
    }
    NothingMore(s.common);
    assert before[0] in before && Sounding(c.common)[0] == before[0];
    LostFails(c', s', p', 1, false, es[1..]);
  }

  lemma {:induction false} SeekFails(c: Cutting, s: Score, before: seq<Element>, known: bool, p: Place, n: nat,
                                     sounded: bool, es: seq<Element>)
    requires SeekFit(c, s, before, known, p, n, sounded) && forall x :: x in Sounding(c.common) ==> x in Heard(s)
    requires Gone(Heard(s), es) && Distinct(es) && Voiced(p, sounded, false, es)
    requires !CutOk(known, n, Signs(p, es)) && HasEnded(Signs(p, es))
    ensures CutHeard(CutAll(c, es)) != Finished(ReadAll(s, es))
    decreases |es|, 1
  {
    var e := es[0];
    InModeValid(s, p, n);
    HeardGone(s, es);
    if !Marks(p, e) {
      SeekFitSound(c, s, before, known, p, n, sounded, es);
      CommonHeard(c, s, p, n, e);
      SeekFails(Snip(c, e), Read(s, e), before, known, Onward(p, e), n, SoundedAfter(p, sounded, e), es[1..]);
    } else if !Quiet(p, n, e) {
      CutPartsAtSign(c, s, p, n, es);
    } else if !FirstEndings.Hit(e) {
      SeekFailsOn(c, s, before, known, p, n, es);
    } else if known {
      KnownFirstFails(c, s, before, p, es);
    } else {
      DividedFirstFails(c, s, before, p, es);
    }
  }

  lemma {:induction false} SeekFailsOn(c: Cutting, s: Score, before: seq<Element>, known: bool, p: Place, n: nat,
                                       es: seq<Element>)
    requires es != [] && Quiet(p, n, es[0]) && !FirstEndings.Hit(es[0]) && Gone(Heard(Read(s, es[0])), es[1..])
    requires SeekFit(c, s, before, known, p, n, true) && forall x :: x in Sounding(c.common) ==> x in Heard(s)
    requires Gone(Heard(s), es) && Distinct(es) && Voiced(p, true, false, es)
    requires !CutOk(known, n, Signs(p, es)) && HasEnded(Signs(p, es))
    ensures CutHeard(CutAll(c, es)) != Finished(ReadAll(s, es))
    decreases |es|, 0
  {
    var e, p' := es[0], Onward(p, es[0]);
    var ss := Signs(p, es);
    assert ss[0] == SignAt(p, e, es[1..]) && ss[1..] == Signs(p', es[1..]);
    SeekFitSign(c, s, before, known, p, n, es);
    CommonHeardAtSign(c, s, p, n, e);
    SeekFails(Snip(c, e), Read(s, e), Before(c, before, p, e), KnownAfter(known, p, e), p', PassesAfter(p, e),
        !e.ABar?, es[1..]);
  }

  lemma {:induction false} KnownFirstFails(c: Cutting, s: Score, before: seq<Element>, p: Place, es: seq<Element>)
    requires es != [] && SeekFit(c, s, before, true, p, 0, true) && FirstEndings.Hit(es[0])
    requires Gone(Heard(s), es) && Distinct(es) && Voiced(p, true, false, es) && Gone(Heard(Read(s, es[0])), es[1..])
    requires !CutOk(true, 0, Signs(p, es)) && HasEnded(Signs(p, es))
    ensures CutHeard(CutAll(c, es)) != Finished(ReadAll(s, es))
  {
    var p', ss := Onward(p, es[0]), Signs(p, es);
    assert ss[0] == SignAt(p, es[0], es[1..]) && ss[1..] == Signs(p', es[1..]);
    SeekFirst(c, s, before, p, es[0]);
    if HasEnded(ss[1..]) {
      EndedIsLater(ss[1..]);
    }
    FirstFails(Snip(c, es[0]), Read(s, es[0]), p', false, es[1..]);
  }

  /** What the cut may go back to was heard. */
  lemma {:induction false} CommonHeard(c: Cutting, s: Score, p: Place, n: nat, e: Element)
    requires c.Seek? && InMode(s, p, n) && !Marks(p, e) && CutHeard(c) == Heard(s)
    ensures forall x :: x in Sounding(Snip(c, e).common) ==> x in Heard(Read(s, e))
  {
    SoundEqual(c, s, p, n, e);
  }

  lemma {:induction false} CommonHeardAtSign(c: Cutting, s: Score, p: Place, n: nat, e: Element)
    requires c.Seek? && InMode(s, p, n) && Quiet(p, n, e) && !FirstEndings.Hit(e) && CutHeard(c) == Heard(s)
    ensures forall x :: x in Sounding(Snip(c, e).common) ==> x in Heard(Read(s, e))
  {
    QuietSign(s, p, n, e);
    CutStepAdds(c, e);
  }

  /** In a voiced score of distinct elements the condition is exact. */
  lemma {:induction false} VoicedExact(es: seq<Element>)
    requires Voiced(TOP, false, false, es) && Distinct(es)
    ensures AsWritten(es) <==> Playable(Signs(TOP, es))
  {
    if Playable(Signs(TOP, es)) {
      PlayableIsAsWritten(es);
    } else {
      ProgramSounds(es);
      NothingMore([]);
      if HasEnded(Signs(TOP, es)) {
        SeekFails(Seek([], []), BLANK, [], true, TOP, 0, false, es);
      } else {
        LoopFails(EMPTY, BLANK, [], true, TOP, 0, false, es);
      }
    }
  }

  // ------------------------------------------------------- every voice

  /** The k-th of infinitely many different elements. */
  function Tag(k: nat): Element {
    ARest(Ratio(k, 1), None)
  }

  /** A voiced score with given signs: something new in every gap but the tight ones. */
  function Fill(ss: seq<Sign>, k: nat, gap: bool): seq<Element>
    decreases |ss|
  {
    (if gap then [Tag(k)] else []) +
    (if ss == [] then [] else [ABar(ss[0].bar)] + Fill(ss[1..], k + 1, !ss[0].tight))
  }

  /** Signs as a voice can have them: tight closing signs inside endings, double
      bars outside sections that have a `|:`. */
  predicate Consistent(own: bool, ended: bool, ss: seq<Sign>)
    decreases |ss|
  {
    ss == [] ||
    var b := ss[0].bar;
    && (IsSign(b) || (b.Double? && !own))
    && (ss[0].tight ==> b.RepeatEnd? && ended && |ss| > 1 && IsEnding(ss[1].bar))
    && Consistent(b.RepeatStart? || b.RepeatBoth?, IsEnding(b) || (b.RepeatEnd? && ended), ss[1..])
  }

  lemma {:induction false} EndingIsNextSign(p: Place, es: seq<Element>)
    requires EndingNext(es) && p.Ended?
    ensures var ss := Signs(p, es); ss != [] && IsEnding(ss[0].bar)
    decreases |es|
  {
    if !IsEnding(es[0].bar) {
      EndingIsNextSign(Onward(p, es[0]), es[1..]);
    }
  }

  lemma {:induction false} SignsConsistent(p: Place, es: seq<Element>)
    ensures Consistent(p.Opened?, p.Ended?, Signs(p, es))
    decreases |es|
  {
    if es != [] {
      var e, p' := es[0], Onward(p, es[0]);
      SignsConsistent(p', es[1..]);
      if Marks(p, e) {
        var ss, rest := Signs(p, es), Signs(p', es[1..]);
        assert ss[0] == SignAt(p, e, es[1..]) && ss[1..] == rest;
        if ss[0].tight {
          EndingIsNextSign(p', es[1..]);
          assert ss[1] == rest[0];
        }
      }
    }
  }

  /** The two halves of a filled score. */
  lemma {:induction false} FillIs(ss: seq<Sign>, k: nat, gap: bool)
    ensures gap ==> Fill(ss, k, gap) == [Tag(k)] + Fill(ss, k, false)
    ensures ss != [] ==> Fill(ss, k, false) == [ABar(ss[0].bar)] + Fill(ss[1..], k + 1, !ss[0].tight)
    ensures ss == [] ==> Fill(ss, k, false) == []
  {
    if ss != [] {
      var rest := [ABar(ss[0].bar)] + Fill(ss[1..], k + 1, !ss[0].tight);
      assert [] + rest == rest;
    }
  }

  /** A place where a reader of a filled score stands before a sign. */
  predicate Ready(p: Place) {
    p == Bare(true) || p == Opened || p == Ended(false)
  }

  /** Where he stands after a sign and the gap behind it, if there is one. */
  function AfterSign(p: Place, s: Sign): Place {
    if s.bar.Double? then Bare(true)
    else
      var p' := Onward(p, ABar(s.bar));
      if s.tight then p' else Onward(p', Tag(0))
  }

  lemma {:induction false} FillTight(p: Place, ss: seq<Sign>, k: nat)
    requires ss != [] && Consistent(p.Opened?, p.Ended?, ss)
    ensures Tight(p, ss[0].bar, Fill(ss[1..], k + 1, !ss[0].tight)) == ss[0].tight
  {
    FillIs(ss[1..], k + 1, !ss[0].tight);
    if ss[0].tight {
      assert ss[1..][0] == ss[1];
    }
  }

  lemma {:induction false} SignsOn(p: Place, e: Element, rest: seq<Element>)
    ensures Signs(p, [e] + rest) == (if Marks(p, e) then [SignAt(p, e, rest)] else []) + Signs(Onward(p, e), rest)
  {
    assert ([e] + rest)[1..] == rest;
    assert [] + Signs(Onward(p, e), rest) == Signs(Onward(p, e), rest);
  }

  lemma {:induction false} AfterSignReady(p: Place, ss: seq<Sign>)
    requires ss != [] && Ready(p) && Consistent(p.Opened?, p.Ended?, ss)
    ensures Ready(AfterSign(p, ss[0])) && Consistent(AfterSign(p, ss[0]).Opened?, AfterSign(p, ss[0]).Ended?, ss[1..])
  {
  }

  /** One sign of a filled score, with the gap behind it. */
  lemma {:induction false} FillSign(p: Place, ss: seq<Sign>, k: nat)
    requires ss != [] && Ready(p) && Consistent(p.Opened?, p.Ended?, ss)
    ensures Signs(p, Fill(ss, k, false)) == [ss[0]] + Signs(AfterSign(p, ss[0]), Fill(ss[1..], k + 1, false))
  {
    var bar, last := ABar(ss[0].bar), Fill(ss[1..], k + 1, false);
    var rest, p' := Fill(ss[1..], k + 1, !ss[0].tight), Onward(p, bar);
    FillIs(ss, k, false);
    FillIs(ss[1..], k + 1, !ss[0].tight);
    FillTight(p, ss, k);
    SignsOn(p, bar, rest);
    if !ss[0].tight {
      SignsOn(p', Tag(k + 1), last);
      GapSign(p, p', ss[0], k + 1, last);
    }
  }

  /** The gap is a sign itself where a double bar has ended an ending. */
  lemma {:induction false} GapSign(p: Place, p': Place, s: Sign, k: nat, last: seq<Element>)
    requires Ready(p) && p' == Onward(p, ABar(s.bar)) && (IsSign(s.bar) || (s.bar.Double? && !p.Opened?)) && !s.tight
    requires SignAt(p, ABar(s.bar), [Tag(k)] + last) == s
    ensures (if Marks(p, ABar(s.bar)) then [s] else [])
            + ((if Marks(p', Tag(k)) then [SignAt(p', Tag(k), last)] else []) + Signs(Onward(p', Tag(k)), last))
            == [s] + Signs(AfterSign(p, s), last)
  {
    var after := Signs(AfterSign(p, s), last);
    assert [] + after == after && [] + ([s] + after) == [s] + after;
  }

  lemma {:induction false} FillSigns(p: Place, ss: seq<Sign>, k: nat)
    requires Ready(p) && Consistent(p.Opened?, p.Ended?, ss)
    ensures Signs(p, Fill(ss, k, false)) == ss
    decreases |ss|
  {
    FillIs(ss, k, false);
    if ss != [] {
      FillSign(p, ss, k);
      AfterSignReady(p, ss);
      FillSigns(AfterSign(p, ss[0]), ss[1..], k + 1);
    }
  }

  lemma {:induction false} FillVoiced(p: Place, ss: seq<Sign>, k: nat, tight: bool)
    requires Ready(p) && Consistent(p.Opened?, p.Ended?, ss) && (tight ==> ss != [] && IsEnding(ss[0].bar))
    ensures Voiced(p, !tight, tight, Fill(ss, k, false))
    decreases |ss|
  {
    FillIs(ss, k, false);
    if ss != [] {
      AfterSignReady(p, ss);
      var p' := AfterSign(p, ss[0]);
      if ss[0].tight {
        assert ss[1..][0] == ss[1];
      }
      FillVoiced(p', ss[1..], k + 1, ss[0].tight);
      FillStep(p, ss, k, tight);
    }
  }

  lemma {:induction false} VoicedOn(p: Place, sounded: bool, tight: bool, e: Element, rest: seq<Element>)
    requires Marks(p, e) ==> sounded || (tight && e.ABar? && IsEnding(e.bar))
    requires Voiced(Onward(p, e), SoundedAfter(p, sounded, e), TightAfter(p, tight, e, rest), rest)
    ensures Voiced(p, sounded, tight, [e] + rest)
  {
    assert ([e] + rest)[1..] == rest;
  }

  lemma {:induction false} FillStep(p: Place, ss: seq<Sign>, k: nat, tight: bool)
    requires ss != [] && Ready(p) && Consistent(p.Opened?, p.Ended?, ss) && (tight ==> IsEnding(ss[0].bar))
    requires Voiced(AfterSign(p, ss[0]), !ss[0].tight, ss[0].tight, Fill(ss[1..], k + 1, false))
    ensures Voiced(p, !tight, tight, Fill(ss, k, false))
  {
    var bar, rest, last := ABar(ss[0].bar), Fill(ss[1..], k + 1, !ss[0].tight), Fill(ss[1..], k + 1, false);
    FillIs(ss, k, false);
    FillIs(ss[1..], k + 1, !ss[0].tight);
    FillTight(p, ss, k);
    if !ss[0].tight {
      GapVoiced(p, ss[0], tight, k + 1, last);
    }
    VoicedOn(p, !tight, tight, bar, rest);
  }

  lemma {:induction false} GapVoiced(p: Place, s: Sign, tight: bool, k: nat, last: seq<Element>)
    requires Ready(p) && (IsSign(s.bar) || (s.bar.Double? && !p.Opened?)) && !s.tight && (tight ==> IsEnding(s.bar))
    requires SignAt(p, ABar(s.bar), [Tag(k)] + last) == s && Voiced(AfterSign(p, s), true, false, last)
    ensures Voiced(Onward(p, ABar(s.bar)), SoundedAfter(p, !tight, ABar(s.bar)),
            TightAfter(p, tight, ABar(s.bar), [Tag(k)] + last), [Tag(k)] + last)
  {
    var bar, rest := ABar(s.bar), [Tag(k)] + last;
    VoicedOn(Onward(p, bar), SoundedAfter(p, !tight, bar), TightAfter(p, tight, bar, rest), Tag(k), last);
  }

  lemma {:induction false} FillDistinct(ss: seq<Sign>, k: nat, gap: bool)
    ensures Distinct(Fill(ss, k, gap))
    ensures forall j: nat :: Tag(j) in Fill(ss, k, gap) ==> if gap then j >= k else j > k
    decreases |ss|, gap
  {
    FillIs(ss, k, gap);
    var es := Fill(ss, k, gap);
    if gap {
      FillDistinct(ss, k, false);
      assert es[1..] == Fill(ss, k, false);
    } else if ss != [] {
      FillDistinct(ss[1..], k + 1, !ss[0].tight);
      assert es[1..] == Fill(ss[1..], k + 1, !ss[0].tight);
    }
  }

  /** The score filled from the top. */
  lemma {:induction false} FilledScore(es: seq<Element>)
    ensures var filled := Fill(Signs(TOP, es), 0, true);
            Signs(TOP, filled) == Signs(TOP, es) && Voiced(TOP, false, false, filled) && Distinct(filled)
  {
    var ss := Signs(TOP, es);
    var filled := Fill(ss, 0, true);
    SignsConsistent(TOP, es);
    FillSigns(Bare(true), ss, 0);
    FillVoiced(Bare(true), ss, 0, false);
    FillDistinct(ss, 0, true);
    FillIs(ss, 0, true);
    assert filled[0] == Tag(0) && filled[1..] == Fill(ss, 0, false);
  }

  /** For every voice: all voices with its signs are played as written, whatever
      sounds between the signs, exactly when the signs are playable. */
  lemma {:induction false} PlayedAsWrittenExactly(es: seq<Element>)
    ensures (forall es' :: Signs(TOP, es') == Signs(TOP, es) ==> AsWritten(es')) <==> Playable(Signs(TOP, es))
  {
    var ss := Signs(TOP, es);
    if Playable(ss) {
      forall es' | Signs(TOP, es') == ss
        ensures AsWritten(es')
      {
        PlayableIsAsWritten(es');
      }
    } else {
      var filled := Fill(ss, 0, true);
      FilledScore(es);
      VoicedExact(filled);
      assert Signs(TOP, filled) == ss && !AsWritten(filled);
    }
  }
}
