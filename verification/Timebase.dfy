/** The local beat: a free-running phasor that slews toward low-rate beat
    references, the back-dating of those references, and the beat onsets a
    frame must click. Instants and durations are nanoseconds; `f64` is `real`. */
module Timebase {
  import opened Prelude

  const REF_STALE_MAX: nat := 5000000000
  const REF_FOLD_MAX: nat := 1000000000
  const NANOS := 1000000000.0
  const RESIDUAL_EMA_ALPHA := 0.25

  datatype BeatRef = BeatRef(beat: real, tempoBps: real, epochNs: nat)

  // -------------------------------------------------------- back-dating

  datatype Disposition = Fold(at: nat) | Touch | Drop

  function StampAge(epochNs: nat, nowEpochNs: nat): Option<nat> {
    if epochNs == 0 then None else Some(SatSub(nowEpochNs, epochNs))
  }

  /** `now.checked_sub(age).unwrap_or(now)`. */
  function CheckedBack(now: nat, age: nat): nat {
    if age <= now then now - age else now
  }

  function Dispose(r: BeatRef, now: nat, nowEpochNs: nat): Disposition {
    match StampAge(r.epochNs, nowEpochNs)
    case None => Fold(now)
    case Some(age) =>
      if age <= REF_FOLD_MAX then Fold(CheckedBack(now, age))
      else if age <= REF_STALE_MAX then Touch
      else Drop
  }

  function BackdatedAt(r: BeatRef, now: nat, nowEpochNs: nat): Option<nat> {
    match StampAge(r.epochNs, nowEpochNs)
    case None => Some(now)
    case Some(age) => if age > REF_STALE_MAX then None else Some(CheckedBack(now, age))
  }

  /** The two entry points agree: a fold is at the back-dated instant, and a
      reference is dropped exactly when back-dating refuses it. */
  lemma {:induction false} DisposalMatchesBackdating(r: BeatRef, now: nat, nowEpochNs: nat)
    ensures Dispose(r, now, nowEpochNs).Drop? <==> BackdatedAt(r, now, nowEpochNs).None?
    ensures Dispose(r, now, nowEpochNs).Fold? ==>
              BackdatedAt(r, now, nowEpochNs) == Some(Dispose(r, now, nowEpochNs).at)
  {
  }

  /** An unstamped reference is folded as it comes; a stamped one is folded up to
      a second old, only noted up to five, and dropped beyond. */
  lemma {:induction false} DisposalByAge(r: BeatRef, now: nat, nowEpochNs: nat)
    ensures r.epochNs == 0 ==> Dispose(r, now, nowEpochNs) == Fold(now)
    ensures r.epochNs != 0 ==>
              var age := nowEpochNs - r.epochNs;
              && (Dispose(r, now, nowEpochNs).Fold? <==> age <= 1000000000)
              && (Dispose(r, now, nowEpochNs).Touch? <==> 1000000000 < age <= 5000000000)
              && (Dispose(r, now, nowEpochNs).Drop? <==> age > 5000000000)
  {
  }

  // --------------------------------------------------------- the phasor

  datatype Phasor = Phasor(
    refBeat: real, refAt: nat, tempo: real,
    gain: real, maxStep: real, deadband: real, residual: real)
  {
    /** A tuning the controller accepts; `clamp` panics on a negative step bound. */
    ghost predicate Tuned() {
      0.0 < gain <= 1.0 && maxStep >= 0.0 && deadband >= 0.0
    }
  }

  datatype Slew = Slew(error: real, step: real, deadbanded: bool, residual: real)

  function Fresh(initial: BeatRef, at: nat): Phasor {
    Phasor(initial.beat, at, initial.tempoBps, 0.20, 1.0, 0.02, 0.0)
  }

  function Seconds(ns: int): real {
    ns as real / NANOS
  }

  /** A product, named so that proofs can treat it as one number. */
  function Scale(x: real, y: real): real {
    x * y
  }

  function Position(b: Phasor, now: nat): real {
    b.refBeat + Scale(b.tempo, Seconds(SatSub(now, b.refAt)))
  }

  function Clamp(x: real, lo: real, hi: real): real {
    if x < lo then lo else if x > hi then hi else x
  }

  /** The phase step for an error whose proportional pull is `pull`. */
  function Correction(error: real, pull: real, maxStep: real, deadband: real): real {
    if Abs(error) <= deadband then 0.0 else Clamp(pull, -maxStep, maxStep)
  }

  function Observe(b: Phasor, r: BeatRef, at: nat): (Phasor, Slew) {
    var current := Position(b, at);
    var error := r.beat - current;
    var deadbanded := Abs(error) <= b.deadband;
    var step := Correction(error, Scale(b.gain, error), b.maxStep, b.deadband);
    var residual := RESIDUAL_EMA_ALPHA * Abs(error) + (1.0 - RESIDUAL_EMA_ALPHA) * b.residual;
    (b.(refBeat := current + step, refAt := at, tempo := r.tempoBps, residual := residual),
     Slew(error, step, deadbanded, residual))
  }

  /** The phasor as the program holds it. */
  class LocalBeat {
    var refBeat: real
    var refAt: nat
    var tempo: real
    var gain: real
    var maxStep: real
    var deadband: real
    var residual: real

    ghost function State(): Phasor
      reads this
    {
      Phasor(refBeat, refAt, tempo, gain, maxStep, deadband, residual)
    }

    constructor (initial: BeatRef, at: nat)
      ensures State() == Fresh(initial, at)
    {
      refBeat, refAt, tempo := initial.beat, at, initial.tempoBps;
      gain, maxStep, deadband, residual := 0.20, 1.0, 0.02, 0.0;
    }

    method PositionAt(now: nat) returns (p: real)
      ensures p == Position(State(), now)
    {
      var dt := Seconds(SatSub(now, refAt));
      p := refBeat + Scale(tempo, dt);
    }

    method ObserveReference(r: BeatRef, at: nat) returns (s: Slew)
      requires maxStep >= 0.0
      modifies this
      ensures (State(), s) == Observe(old(State()), r, at)
    {
      var current := PositionAt(at);
      var error := r.beat - current;
      var deadbanded := Abs(error) <= deadband;
      var step := 0.0;
      if !deadbanded {
        step := Clamp(Scale(gain, error), -maxStep, maxStep);
      }
      refBeat, refAt, tempo := current + step, at, r.tempoBps;
      residual := RESIDUAL_EMA_ALPHA * Abs(error) + (1.0 - RESIDUAL_EMA_ALPHA) * residual;
      s := Slew(error, step, deadbanded, residual);
    }
  }

  /** What an observation does and reports: the error is how far the reference is
      ahead, the step is what it moves the position by at that instant, never
      away from the reference, past it, or by more than the bound, and nothing in
      the deadband; the residual closes a quarter of its distance to the error. */
  lemma {:induction false} ObservationMeans(b: Phasor, r: BeatRef, at: nat)
    requires b.Tuned()
    ensures var (b', s) := Observe(b, r, at);
            && s.error == r.beat - Position(b, at) && s.step == Position(b', at) - Position(b, at)
            && Abs(s.step) <= b.maxStep && Abs(s.error - s.step) <= Abs(s.error)
            && (s.deadbanded <==> Abs(s.error) <= b.deadband) && (s.deadbanded ==> s.step == 0.0)
            && b'.tempo == r.tempoBps && s.residual == b'.residual
            && b'.residual - Abs(s.error) == 0.75 * (b.residual - Abs(s.error))
            && b'.gain == b.gain && b'.maxStep == b.maxStep && b'.deadband == b.deadband
  {
    var (b', s) := Observe(b, r, at);
    assert Seconds(SatSub(at, at)) == 0.0 && Scale(b'.tempo, 0.0) == 0.0;
    PullIsBetween(b.gain, s.error, Scale(b.gain, s.error));
  }

  /** Out of the box: a fiftieth of a beat is let be, a fifth of anything more is
      made up at once, and never more than one beat. */
  lemma {:induction false} FreshTakesAFifth(initial: BeatRef, start: nat, r: BeatRef, at: nat)
    ensures var b := Fresh(initial, start);
            var off := r.beat - Position(b, at);
            && Position(b, start) == initial.beat && b.tempo == initial.tempoBps
            && Observe(b, r, at).1.step ==
               (if -0.02 <= off <= 0.02 then 0.0 else if off > 5.0 then 1.0 else if off < -5.0 then -1.0 else off / 5.0)
  {
    var b := Fresh(initial, start);
    var off := r.beat - Position(b, at);
    assert Seconds(SatSub(start, start)) == 0.0 && Scale(b.tempo, 0.0) == 0.0;
    assert Scale(b.gain, off) == off / 5.0;
  }

  lemma {:induction false} PullIsBetween(g: real, e: real, pull: real)
    requires 0.0 < g <= 1.0 && pull == Scale(g, e)
    ensures e >= 0.0 ==> 0.0 <= pull <= e
    ensures e <= 0.0 ==> e <= pull <= 0.0
  {
    if e >= 0.0 {
      GainLeavesLess(g, e, e);
    } else {
      GainLeavesLess(g, -e, -e);
    }
  }

  // -------------------------------------------------------- convergence

  /** A constant-tempo timeline. */
  datatype Line = Line(beat0: real, bps: real)
  {
    function At(t: nat): real {
      beat0 + Scale(bps, Seconds(t))
    }

    function Ref(t: nat): BeatRef {
      BeatRef(At(t), bps, 0)
    }
  }

  /** How far the phasor is behind the line at `t`. */
  function ErrorAt(b: Phasor, line: Line, t: nat): real {
    line.At(t) - Position(b, t)
  }

  function Smaller(x: real, y: real): real {
    if x <= y then x else y
  }

  /** What one reference outside the deadband is sure to take off the error. */
  function Bite(b: Phasor): real {
    Smaller(b.maxStep, Scale(b.gain, b.deadband))
  }

  function Bites(bite: real, n: nat): real {
    if n == 0 then 0.0 else bite + Bites(bite, n - 1)
  }

  lemma {:induction false} BitesAddUp(bite: real, n: nat)
    ensures Bites(bite, n) == n as real * bite
  {
    if n > 0 {
      BitesAddUp(bite, n - 1);
      assert n as real * bite == bite + (n - 1) as real * bite;
    }
  }

  /** At the line's own tempo the error does not change as time passes. */
  lemma {:induction false} ErrorIsConstant(b: Phasor, line: Line, t: nat, u: nat)
    requires b.tempo == line.bps && b.refAt <= t && b.refAt <= u
    ensures ErrorAt(b, line, t) == ErrorAt(b, line, u)
  {
    ErrorAtAnchor(b, line, t);
    ErrorAtAnchor(b, line, u);
  }

  lemma {:induction false} ScaleMinus(v: real, x: real, y: real)
    ensures Scale(v, x) - Scale(v, y) == Scale(v, x - y)
  {
  }

  lemma {:induction false} ErrorAtAnchor(b: Phasor, line: Line, t: nat)
    requires b.tempo == line.bps && b.refAt <= t
    ensures ErrorAt(b, line, t) == line.At(b.refAt) - b.refBeat
  {
    assert Seconds(t) - Seconds(b.refAt) == Seconds(t - b.refAt);
    ScaleMinus(line.bps, Seconds(t), Seconds(t - b.refAt));
  }

  /** The error after some references: same sign, no larger, untouched inside the
      deadband, and inside it unless it lost at least `taken`. */
  ghost predicate Closer(e: real, e': real, deadband: real, taken: real) {
    && (e >= 0.0 ==> 0.0 <= e' <= e) && (e <= 0.0 ==> e <= e' <= 0.0)
    && (Abs(e) <= deadband ==> e' == e)
    && (Abs(e') <= deadband || Abs(e') <= Abs(e) - taken)
  }

  lemma {:induction false} NonNegative(a: real, b: real)
    requires a >= 0.0 && b >= 0.0
    ensures a * b >= 0.0
  {
  }

  lemma {:induction false} GainLeavesLess(g: real, x: real, y: real)
    requires 0.0 < g <= 1.0 && 0.0 <= x <= y
    ensures 0.0 <= Scale(g, x) <= Scale(g, y) <= y
    ensures Scale(g, -y) == -Scale(g, y)
  {
    NonNegative(g, y - x);
    NonNegative(1.0 - g, y);
    NonNegative(g, x);
    assert g * (y - x) == g * y - g * x && (1.0 - g) * y == y - g * y;
  }

  lemma {:induction false} CloserFromAhead(e: real, pull: real, floor: real, maxStep: real, deadband: real)
    requires maxStep >= 0.0 && e > deadband >= 0.0 && 0.0 <= floor <= pull <= e
    ensures Closer(e, e - Clamp(pull, -maxStep, maxStep), deadband, Smaller(maxStep, floor))
  {
  }

  lemma {:induction false} CloserFromBehind(e: real, pull: real, floor: real, maxStep: real, deadband: real)
    requires maxStep >= 0.0 && -e > deadband >= 0.0 && 0.0 <= floor <= -pull <= -e
    ensures Closer(e, e - Clamp(pull, -maxStep, maxStep), deadband, Smaller(maxStep, floor))
  {
  }

  /** The controller seen from the error alone. */
  function NextError(e: real, g: real, maxStep: real, deadband: real): real {
    e - Correction(e, Scale(g, e), maxStep, deadband)
  }

  lemma {:induction false} PullAhead(g: real, e: real, deadband: real) returns (pull: real, floor: real)
    requires 0.0 < g <= 1.0 && e > deadband >= 0.0
    ensures pull == Scale(g, e) && floor == Scale(g, deadband) && 0.0 <= floor <= pull <= e
  {
    GainLeavesLess(g, deadband, e);
    pull, floor := Scale(g, e), Scale(g, deadband);
  }

  /** The proportional pull and its floor, as numbers: outside the deadband the
      pull is at least gain*deadband and at most the error. */
  lemma {:induction false} Pull(g: real, e: real, deadband: real) returns (pull: real, floor: real)
    requires 0.0 < g <= 1.0 && deadband >= 0.0
    ensures pull == Scale(g, e) && floor == Scale(g, deadband)
    ensures e > deadband ==> 0.0 <= floor <= pull <= e
    ensures -e > deadband ==> 0.0 <= floor <= -pull <= -e
  {
    if e > deadband {
      pull, floor := PullAhead(g, e, deadband);
    } else if -e > deadband {
      var mirror;
      mirror, floor := PullAhead(g, -e, deadband);
      pull := -mirror;
    } else {
      pull, floor := Scale(g, e), Scale(g, deadband);
    }
  }

  lemma {:induction false} CorrectionIsCloser(e: real, pull: real, floor: real, maxStep: real, deadband: real)
    requires maxStep >= 0.0 && deadband >= 0.0
    requires e > deadband ==> 0.0 <= floor <= pull <= e
    requires -e > deadband ==> 0.0 <= floor <= -pull <= -e
    ensures Closer(e, e - Correction(e, pull, maxStep, deadband), deadband, Smaller(maxStep, floor))
  {
    if e > deadband {
      CloserFromAhead(e, pull, floor, maxStep, deadband);
    } else if -e > deadband {
      CloserFromBehind(e, pull, floor, maxStep, deadband);
    }
  }

  lemma {:induction false} NextErrorIsCloser(e: real, g: real, maxStep: real, deadband: real)
    returns (e': real, bite: real)
    requires 0.0 < g <= 1.0 && maxStep >= 0.0 && deadband >= 0.0
    ensures e' == NextError(e, g, maxStep, deadband) && bite == Smaller(maxStep, Scale(g, deadband))
    ensures Closer(e, e', deadband, bite)
  {
    var pull, floor := Pull(g, e, deadband);
    CorrectionIsCloser(e, pull, floor, maxStep, deadband);
    e', bite := e - Correction(e, pull, maxStep, deadband), Smaller(maxStep, floor);
  }

  lemma {:induction false} CloserAndCloser(e: real, e1: real, e2: real, deadband: real, taken1: real, taken2: real)
    requires Closer(e, e1, deadband, taken1) && Closer(e1, e2, deadband, taken2)
    ensures Closer(e, e2, deadband, taken1 + taken2)
  {
  }

  /** The error after n references. */
  function ErrorAfter(e: real, n: nat, g: real, maxStep: real, deadband: real): real
    decreases n
  {
    if n == 0 then e else ErrorAfter(NextError(e, g, maxStep, deadband), n - 1, g, maxStep, deadband)
  }

  /** n applications of the controller get closer by n bites. */
  lemma {:induction false} ControllerConverges(e: real, n: nat, g: real, m: real, d: real)
    returns (e': real, taken: real)
    requires 0.0 < g <= 1.0 && m >= 0.0 && d >= 0.0
    ensures e' == ErrorAfter(e, n, g, m, d) && taken == Bites(Smaller(m, Scale(g, d)), n)
    ensures Closer(e, e', d, taken)
    decreases n
  {
    if n == 0 {
      e', taken := e, 0.0;
    } else {
      var e1, bite := NextErrorIsCloser(e, g, m, d);
      var rest;
      e', rest := ControllerConverges(e1, n - 1, g, m, d);
      taken := bite + rest;
      CloserAndCloser(e, e1, e', d, bite, rest);
    }
  }

  /** One reference adopts the line's tempo and applies the controller to the error. */
  lemma {:induction false} OneReference(b: Phasor, line: Line, at: nat)
    ensures var b' := Observe(b, line.Ref(at), at).0;
            && b'.tempo == line.bps && b'.refAt == at
            && b'.gain == b.gain && b'.maxStep == b.maxStep && b'.deadband == b.deadband
            && ErrorAt(b', line, at) == NextError(ErrorAt(b, line, at), b.gain, b.maxStep, b.deadband)
  {
    var b' := Observe(b, line.Ref(at), at).0;
    assert Seconds(0) == 0.0 && Scale(b'.tempo, 0.0) == 0.0;
  }

  /** References on the line at the given instants, one after the other. */
  function Follow(b: Phasor, line: Line, ats: seq<nat>): Phasor
    decreases |ats|
  {
    if ats == [] then b else Follow(Observe(b, line.Ref(ats[0]), ats[0]).0, line, ats[1..])
  }

  ghost predicate InOrder(from: nat, ats: seq<nat>)
    decreases |ats|
  {
    ats == [] || (from <= ats[0] && InOrder(ats[0], ats[1..]))
  }

  /** Along in-order references the error evolves by the controller alone. */
  lemma {:induction false} FollowErrors(b: Phasor, line: Line, ats: seq<nat>) returns (e: real, e': real)
    requires ats != [] && InOrder(b.refAt, ats)
    ensures Follow(b, line, ats).tempo == line.bps && Follow(b, line, ats).refAt >= ats[0]
    ensures e == ErrorAt(b, line, ats[0]) && e' == ErrorAt(Follow(b, line, ats), line, Follow(b, line, ats).refAt)
    ensures e' == ErrorAfter(e, |ats|, b.gain, b.maxStep, b.deadband)
    decreases |ats|
  {
    var at := ats[0];
    var b1 := Observe(b, line.Ref(at), at).0;
    OneReference(b, line, at);
    e := ErrorAt(b, line, at);
    if |ats| > 1 {
      ErrorIsConstant(b1, line, at, ats[1]);
      var e1;
      e1, e' := FollowErrors(b1, line, ats[1..]);
    } else {
      assert ats[1..] == [];
      e' := ErrorAt(b1, line, at);
      assert ErrorAfter(e', 0, b.gain, b.maxStep, b.deadband) == e';
    }
  }

  /** Phasor convergence, whatever state and tempo it starts in: the first
      reference fixes the tempo, and after n in-order references the error
      never changed sign or grew, stayed put if it was inside the deadband, and
      is inside it unless it lost n bites (`CloserMeans` spells this out). */
  lemma {:induction false} PhasorConverges(b: Phasor, line: Line, ats: seq<nat>)
    returns (e: real, e': real, taken: real)
    requires b.Tuned() && ats != [] && InOrder(b.refAt, ats)
    ensures Follow(b, line, ats).tempo == line.bps && Follow(b, line, ats).refAt >= ats[0]
    ensures e == ErrorAt(b, line, ats[0]) && e' == ErrorAt(Follow(b, line, ats), line, Follow(b, line, ats).refAt)
    ensures taken == Bites(Bite(b), |ats|)
    ensures Closer(e, e', b.deadband, taken)
  {
    e, e' := FollowErrors(b, line, ats);
    var e'';
    e'', taken := ControllerConverges(e, |ats|, b.gain, b.maxStep, b.deadband);
  }

  /** What being closer by n bites promises: inside the deadband as soon as
      n bites cover what the initial error has over it. */
  lemma {:induction false} CloserMeans(e: real, e': real, deadband: real, bite: real, n: nat)
    requires Closer(e, e', deadband, Bites(bite, n))
    ensures (e >= 0.0 ==> 0.0 <= e' <= e) && (e <= 0.0 ==> e <= e' <= 0.0)
    ensures Abs(e) <= deadband ==> e' == e
    ensures n as real * bite >= Abs(e) - deadband ==> Abs(e') <= deadband
  {
    BitesAddUp(bite, n);
  }

  /** Between references the phasor is the line less its error: exactly linear. */
  lemma {:induction false} PositionIsLinear(b: Phasor, line: Line, t: nat)
    requires b.tempo == line.bps && b.refAt <= t
    ensures Position(b, t) == line.At(t) - ErrorAt(b, line, b.refAt)
  {
    ErrorIsConstant(b, line, t, b.refAt);
  }

  /** Once inside the deadband, further references on the line leave every
      later position where free running would have put it. */
  lemma {:induction false} DialedInIsLinear(b: Phasor, line: Line, ats: seq<nat>, t: nat)
    requires b.Tuned() && b.tempo == line.bps && ats != [] && InOrder(b.refAt, ats)
    requires Abs(ErrorAt(b, line, b.refAt)) <= b.deadband
    requires t >= Follow(b, line, ats).refAt
    ensures Position(Follow(b, line, ats), t) == Position(b, t)
  {
    ErrorIsConstant(b, line, b.refAt, ats[0]);
    var e, e', taken := PhasorConverges(b, line, ats);
    PositionIsLinear(Follow(b, line, ats), line, t);
    PositionIsLinear(b, line, t);
  }

  // ---------------------------------------- delivery-delay independence

  /** When a reference was received, on the monotonic and the wall clock. */
  datatype Receipt = Receipt(now: nat, epochNs: nat)

  /** The receiver's loop: fold what is fresh, ignore the rest. */
  function FoldAll(b: Phasor, refs: seq<BeatRef>, receipts: seq<Receipt>): Phasor
    requires |refs| == |receipts|
    decreases |refs|
  {
    if refs == [] then b
    else
      var d := Dispose(refs[0], receipts[0].now, receipts[0].epochNs);
      FoldAll(if d.Fold? then Observe(b, refs[0], d.at).0 else b, refs[1..], receipts[1..])
  }

  /** Folding each reference at the very instant it was emitted. */
  function FoldAtEmission(b: Phasor, refs: seq<BeatRef>, offset: int): Phasor
    requires forall r :: r in refs ==> r.epochNs + offset >= 0
    decreases |refs|
  {
    if refs == [] then b
    else FoldAtEmission(Observe(b, refs[0], refs[0].epochNs + offset).0, refs[1..], offset)
  }

  /** The receipt is no earlier than the emission, no more than the fold
      bound after it, and late enough in the process for the subtraction. */
  ghost predicate Timely(r: BeatRef, c: Receipt) {
    && r.epochNs <= c.epochNs
    && c.epochNs - r.epochNs <= REF_FOLD_MAX
    && c.epochNs - r.epochNs <= c.now
  }

  /** A stamped reference is folded at its emission instant exactly when its
      receipt is timely (clocks a fixed offset apart). */
  lemma {:induction false} FoldsAtEmission(r: BeatRef, c: Receipt, offset: int)
    requires r.epochNs != 0 && c.now == c.epochNs + offset && r.epochNs + offset >= 0
    ensures Dispose(r, c.now, c.epochNs) == Fold(r.epochNs + offset) <==> Timely(r, c)
  {
  }

  /** Any timely delivery leaves the phasor that instant delivery would. */
  lemma {:induction false} DelayIndependence(b: Phasor, refs: seq<BeatRef>, receipts: seq<Receipt>, offset: int)
    requires |refs| == |receipts|
    requires forall i :: 0 <= i < |refs| ==>
      && refs[i].epochNs != 0 && refs[i].epochNs + offset >= 0
      && receipts[i].now == receipts[i].epochNs + offset && Timely(refs[i], receipts[i])
    ensures forall r :: r in refs ==> r.epochNs + offset >= 0
    ensures FoldAll(b, refs, receipts) == FoldAtEmission(b, refs, offset)
    decreases |refs|
  {
    if refs != [] {
      FoldsAtEmission(refs[0], receipts[0], offset);
      DelayIndependence(Observe(b, refs[0], refs[0].epochNs + offset).0, refs[1..], receipts[1..], offset);
    }
  }

  // -------------------------------------------------------- beat onsets

  /** The integers in (prev, cur], ascending. */
  function OnsetsIn(prev: real, cur: real): seq<int> {
    if cur > prev then seq(cur.Floor - prev.Floor, i requires 0 <= i => prev.Floor + 1 + i) else []
  }

  method BeatOnsetsIn(prev: real, cur: real) returns (onsets: seq<int>)
    ensures onsets == OnsetsIn(prev, cur)
  {
    onsets := [];
    if cur > prev {
      var n := prev.Floor + 1;
      while n as real <= cur
        invariant prev.Floor + 1 <= n <= cur.Floor + 1
        invariant onsets == seq(n - prev.Floor - 1, i requires 0 <= i => prev.Floor + 1 + i)
        decreases cur.Floor + 1 - n
      {
        onsets := onsets + [n];
        n := n + 1;
      }
    }
  }

  lemma {:induction false} OnsetsAreTheIntegers(prev: real, cur: real, n: int)
    ensures n in OnsetsIn(prev, cur) <==> prev < n as real <= cur
  {
    if prev < n as real <= cur {
      assert OnsetsIn(prev, cur)[n - prev.Floor - 1] == n;
    }
  }

  /** The frames' clicks, one after the other. */
  function Clicks(positions: seq<real>): seq<int>
    requires positions != []
    decreases |positions|
  {
    if |positions| == 1 then []
    else OnsetsIn(positions[0], positions[1]) + Clicks(positions[1..])
  }

  lemma {:induction false} OnsetsJoin(a: real, b: real, c: real)
    requires a <= b <= c
    ensures OnsetsIn(a, b) + OnsetsIn(b, c) == OnsetsIn(a, c)
  {
    assert a.Floor <= b.Floor <= c.Floor;
  }

  /** Over any number of frames of a position that does not run backwards,
      each beat between the first and the last is clicked exactly once, in order. */
  lemma {:induction false} EveryBeatOnce(positions: seq<real>)
    requires positions != []
    requires forall i :: 0 < i < |positions| ==> positions[i - 1] <= positions[i]
    ensures positions[0] <= positions[|positions| - 1]
    ensures Clicks(positions) == OnsetsIn(positions[0], positions[|positions| - 1])
    decreases |positions|
  {
    if |positions| > 1 {
      var rest := positions[1..];
      assert forall i :: 0 < i < |rest| ==> rest[i - 1] == positions[i] && rest[i] == positions[i + 1];
      EveryBeatOnce(rest);
      assert positions[0] <= positions[1];
      OnsetsJoin(positions[0], positions[1], rest[|rest| - 1]);
    }
  }

  // ------------------------------------------- the phasor's own positions

  /** What happens to a running phasor: a frame is drawn, a reference steps it. */
  datatype Moment = Drawn(at: nat) | Reference(r: BeatRef, at: nat)

  /** The positions the frames see. */
  function Frames(b: Phasor, ms: seq<Moment>): seq<real>
    decreases |ms|
  {
    if ms == [] then []
    else match ms[0]
      case Drawn(at) => [Position(b, at)] + Frames(b, ms[1..])
      case Reference(r, at) => Frames(Observe(b, r, at).0, ms[1..])
  }

  ghost predicate Timed(now: nat, ms: seq<Moment>)
    decreases |ms|
  {
    ms == [] || (now <= ms[0].at && Timed(ms[0].at, ms[1..]))
  }

  /** By each frame the beats run since the frame before have made up for the
      steps back that references took in between. `since`: beats run less steps
      back, from the last frame to now. */
  ghost predicate MadeUp(b: Phasor, since: real, now: nat, ms: seq<Moment>)
    decreases |ms|
  {
    ms == [] ||
    var run := since + Scale(b.tempo, Seconds(SatSub(ms[0].at, now)));
    match ms[0]
    case Drawn(at) => run >= 0.0 && MadeUp(b, 0.0, at, ms[1..])
    case Reference(r, at) => MadeUp(Observe(b, r, at).0, run + Observe(b, r, at).1.step, at, ms[1..])
  }

  predicate Rising(ps: seq<real>) {
    forall i :: 0 < i < |ps| ==> ps[i - 1] <= ps[i]
  }

  lemma {:induction false} RunsOn(b: Phasor, now: nat, at: nat)
    requires b.refAt <= now <= at
    ensures Position(b, at) == Position(b, now) + Scale(b.tempo, Seconds(at - now))
  {
    ScaleMinus(b.tempo, Seconds(at - b.refAt), Seconds(now - b.refAt));
    assert Seconds(at - now) == Seconds(at - b.refAt) - Seconds(now - b.refAt);
  }

  lemma {:induction false} RisingOn(p: real, q: real, ps: seq<real>)
    ensures Rising([p] + ([q] + ps)) <==> p <= q && Rising([q] + ps)
  {
    var all, rest := [p] + ([q] + ps), [q] + ps;
    if Rising(all) {
      assert all[0] <= all[1];
      forall i | 0 < i < |rest|
        ensures rest[i - 1] <= rest[i]
      {
        assert all[i] <= all[i + 1];
      }
    }
    if p <= q && Rising(rest) {
      forall i | 0 < i < |all|
        ensures all[i - 1] <= all[i]
      {
        assert i > 1 ==> rest[i - 2] <= rest[i - 1];
      }
    }
  }

  /** The frames' positions never go back exactly when every step back is made
      up for by the next frame. */
  lemma {:induction false} FramesNeverGoBack(b: Phasor, last: real, since: real, now: nat, ms: seq<Moment>)
    requires Timed(now, ms) && b.refAt <= now && Position(b, now) == last + since
    ensures Rising([last] + Frames(b, ms)) <==> MadeUp(b, since, now, ms)
    decreases |ms|
  {
    if ms != [] {
      var at := ms[0].at;
      RunsOn(b, now, at);
      if ms[0].Drawn? {
        var p := Position(b, at);
        RisingOn(last, p, Frames(b, ms[1..]));
        FramesNeverGoBack(b, p, 0.0, at, ms[1..]);
      } else {
        var (b', slew) := Observe(b, ms[0].r, at);
        assert Seconds(0) == 0.0 && Position(b', at) == b'.refBeat + Scale(b'.tempo, 0.0);
        var run := since + Scale(b.tempo, Seconds(at - now));
        FramesNeverGoBack(b', last, run + slew.step, at, ms[1..]);
      }
    }
  }

  /** Then every beat is clicked exactly once, in order. */
  lemma {:induction false} PhasorClicksOnce(b: Phasor, now: nat, ms: seq<Moment>)
    requires Timed(now, ms) && b.refAt <= now && MadeUp(b, 0.0, now, ms)
    ensures var ps := [Position(b, now)] + Frames(b, ms); Clicks(ps) == OnsetsIn(ps[0], ps[|ps| - 1])
  {
    FramesNeverGoBack(b, Position(b, now), 0.0, now, ms);
    EveryBeatOnce([Position(b, now)] + Frames(b, ms));
  }

  /** No tempo is negative, and no reference finds the phasor ahead by more than the deadband. */
  ghost predicate NeverAhead(b: Phasor, ms: seq<Moment>)
    decreases |ms|
  {
    b.tempo >= 0.0 &&
    (ms == [] ||
     match ms[0]
     case Drawn(_) => NeverAhead(b, ms[1..])
     case Reference(r, at) => r.beat - Position(b, at) >= -b.deadband && NeverAhead(Observe(b, r, at).0, ms[1..]))
  }

  lemma {:induction false} NeverAheadMakesUp(b: Phasor, since: real, now: nat, ms: seq<Moment>)
    requires b.Tuned() && Timed(now, ms) && since >= 0.0 && NeverAhead(b, ms)
    ensures MadeUp(b, since, now, ms)
    decreases |ms|
  {
    if ms != [] {
      var at := ms[0].at;
      NonNegative(b.tempo, Seconds(at - now));
      if ms[0].Drawn? {
        NeverAheadMakesUp(b, 0.0, at, ms[1..]);
      } else {
        var (b', slew) := Observe(b, ms[0].r, at);
        if slew.error >= 0.0 {
          NonNegative(b.gain, slew.error);
        }
        assert slew.step >= 0.0;
        NeverAheadMakesUp(b', since + Scale(b.tempo, Seconds(at - now)) + slew.step, at, ms[1..]);
      }
    }
  }

  /** A reference observed at `t`, between two frames there, and a frame later. */
  function AroundStep(r: BeatRef, t: nat): seq<Moment> {
    [Drawn(t)] + ([Reference(r, t)] + ([Drawn(t)] + ([Drawn(2 * t)] + [])))
  }

  lemma {:induction false} FramesNext(b: Phasor, m: Moment, rest: seq<Moment>)
    ensures Frames(b, [m] + rest) ==
            if m.Drawn? then [Position(b, m.at)] + Frames(b, rest) else Frames(Observe(b, m.r, m.at).0, rest)
  {
    assert ([m] + rest)[1..] == rest;
  }

  /** Otherwise a beat can be clicked twice: past beat 1 the phasor is stepped
      back before it, and runs past it again. */
  lemma {:induction false} StepBackClicksTwice(b: Phasor, r: BeatRef, t: nat, p: real, q: real)
    requires p == Position(Observe(b, r, t).0, t) && q == Position(Observe(b, r, t).0, 2 * t)
    requires 0.0 <= p <= Position(b, 0) < 1.0 < Position(b, t) < 2.0 && 1.0 < q < 2.0
    ensures Clicks([Position(b, 0)] + Frames(b, AroundStep(r, t))) == [1, 1]
  {
    var b' := Observe(b, r, t).0;
    FramesNext(b', Drawn(2 * t), []);
    FramesNext(b', Drawn(t), [Drawn(2 * t)] + []);
    FramesNext(b, Reference(r, t), [Drawn(t)] + ([Drawn(2 * t)] + []));
    FramesNext(b, Drawn(t), [Reference(r, t)] + ([Drawn(t)] + ([Drawn(2 * t)] + [])));
    assert Frames(b', []) == [];
    assert [Position(b, 0)] + ([Position(b, t)] + ([p] + ([q] + []))) == [Position(b, 0), Position(b, t), p, q];
    ClicksOf(Position(b, 0), Position(b, t), p, q);
  }

  lemma {:induction false} StepsBack(b: Phasor, r: BeatRef, t: nat, p: real, e: real, step: real)
    requires p == Position(b, t) && e == r.beat - p && step == Scale(b.gain, e) && e < -b.deadband <= 0.0
    requires -b.maxStep <= step <= b.maxStep
    ensures var b' := Observe(b, r, t).0; b'.refBeat == p + step && b'.refAt == t && b'.tempo == r.tempoBps
  {
  }

  /** As at 12 beats a minute with the default tuning: from 0.9 to 1.1, back to
      0.88 at a reference for beat 0, and on to 1.08. */
  lemma {:induction false} StepBackExample(b: Phasor, r: BeatRef, t: nat)
    requires b.refBeat == 0.9 && b.refAt == 0 && b.tempo == 0.2 && b.gain == 0.2 && b.maxStep == 1.0
             && b.deadband == 0.02
    requires r.beat == 0.0 && r.tempoBps == 0.2 && t == 1_000_000_000
    ensures Clicks([Position(b, 0)] + Frames(b, AroundStep(r, t))) == [1, 1]
  {
    OneSecondOn(b);
    assert Scale(b.gain, -1.1) == -0.22;
    StepsBack(b, r, t, 1.1, -1.1, -0.22);
    ExampleGoesOn(b, r, t, Observe(b, r, t).0);
  }

  lemma {:induction false} ExampleGoesOn(b: Phasor, r: BeatRef, t: nat, b': Phasor)
    requires Position(b, 0) == 0.9 && Position(b, t) == 1.1 && t == 1_000_000_000
    requires b' == Observe(b, r, t).0 && b'.refBeat == 0.88 && b'.refAt == t && b'.tempo == 0.2
    ensures Clicks([Position(b, 0)] + Frames(b, AroundStep(r, t))) == [1, 1]
  {
    OneSecondOn(b');
    StepBackClicksTwice(b, r, t, Position(b', t), Position(b', 2 * t));
  }

  lemma {:induction false} OneSecondOn(b: Phasor)
    requires b.tempo == 0.2
    ensures Position(b, b.refAt) == b.refBeat && Position(b, b.refAt + 1_000_000_000) == b.refBeat + 0.2
  {
    assert Seconds(0) == 0.0 && Seconds(1_000_000_000) == 1.0;
    assert Scale(0.2, 0.0) == 0.0 && Scale(0.2, 1.0) == 0.2;
  }

  lemma {:induction false} ClicksOf(p: real, q: real, r: real, s: real)
    requires 0.0 <= r <= p < 1.0 < q < 2.0 && r < 1.0 < s < 2.0
    ensures Clicks([p, q, r, s]) == [1, 1]
  {
    OneOnset(p, q);
    OneOnset(r, s);
    assert OnsetsIn(q, r) == [];
    ClicksNext([p, q, r, s], [q, r, s]);
    ClicksNext([q, r, s], [r, s]);
    ClicksNext([r, s], [s]);
  }

  lemma {:induction false} OneOnset(a: real, b: real)
    requires 0.0 <= a < 1.0 < b < 2.0
    ensures OnsetsIn(a, b) == [1]
  {
    assert a.Floor == 0 && b.Floor == 1;
  }

  lemma {:induction false} ClicksNext(ps: seq<real>, rest: seq<real>)
    requires |ps| > 1 && rest == ps[1..]
    ensures Clicks(ps) == OnsetsIn(ps[0], ps[1]) + Clicks(rest)
    ensures |rest| == 1 ==> Clicks(rest) == []
  {
  }
}
