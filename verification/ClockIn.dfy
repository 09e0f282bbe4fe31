/** The MIDI clock-in estimator: an EMA over inter-pulse intervals whose own
    output decides how the next interval is classified. `f64` is `real`. */
module ClockIn {
  import opened Prelude
  import opened Timebase

  const PULSES_PER_BEAT := 24
  const EMA_ALPHA := 0.05
  const ACCEPT_LOW := 0.75
  const ACCEPT_HIGH := 1.33
  const DROPOUT_HIGH := 4.5
  const DROPOUT_TOLERANCE := 0.25

  datatype ClockEvent =
    | Pulse(t: nat)
    | Start(t: nat)
    | Continue(t: nat)
    | Stop(t: nat)
    | SongPosition(t: nat, sixteenths: nat)

  datatype ClockEstimate = ClockEstimate(reference: BeatRef, epochNs: nat, residualNs: int)

  datatype Est = Est(
    period: Option<real>,
    last: Option<nat>,
    count: nat,
    running: bool,
    anchored: bool,
    sinceEmit: nat,
    residual: int,
    discontinuities: nat)
  {
    /** A learned period is positive, so the ratio of an interval to it is defined. */
    ghost predicate Valid() {
      period.Some? ==> period.value > 0.0
    }
  }

  function New(): Est {
    Est(None, None, 0, true, false, 0, 0, 0)
  }

  function Emission(s: Est, t: nat): Option<ClockEstimate>
    requires s.Valid()
  {
    if s.period.None? || !s.anchored then None
    else Some(ClockEstimate(
                BeatRef(s.count as real / PULSES_PER_BEAT as real,
                    1000000000.0 / (s.period.value * PULSES_PER_BEAT as real), 0),
                t, s.residual))
  }

  function StepCount(s: Est, n: nat, t: nat): (Est, Option<ClockEstimate>)
    requires s.Valid()
  {
    if !s.running then (s, None)
    else
      var s1 := s.(count := s.count + n, sinceEmit := s.sinceEmit + n);
      if s1.sinceEmit >= PULSES_PER_BEAT then
        var s2 := s1.(sinceEmit := 0);
        (s2, Emission(s2, t))
      else (s1, None)
  }

  /** How an interval is read against the learned period: how many periods it
      counts for, what it teaches the EMA, and whether it is a stall. */
  datatype Reading = Reading(pulses: nat, teach: Option<real>, stall: bool)

  function Classify(interval: real, period: real): Reading
    requires period > 0.0 && interval >= 0.0
  {
    var ratio := interval / period;
    if ACCEPT_LOW <= ratio <= ACCEPT_HIGH then Reading(1, Some(interval), false)
    else if ratio > ACCEPT_HIGH && ratio <= DROPOUT_HIGH then
      var k := Round(ratio);
      if Abs(ratio - k as real) <= DROPOUT_TOLERANCE && k >= 2
      then Reading(k, Some(interval / k as real), false)
      else Reading(1, None, false)
    else if ratio > DROPOUT_HIGH then Reading(1, None, true)
    else Reading(1, None, false)
  }

  lemma {:induction false} TeachIsPositive(interval: real, period: real)
    requires period > 0.0 && interval >= 0.0
    ensures var r := Classify(interval, period); r.teach.Some? ==> r.teach.value > 0.0
  {
    var ratio := interval / period;
    assert ratio * period == interval;
  }

  function StepPulse(s: Est, t: nat): (r: (Est, Option<ClockEstimate>))
    requires s.Valid()
    ensures r.0.Valid()
  {
    if s.last.None? then (s.(last := Some(t), anchored := true), None)
    else
      var interval := SatSub(t, s.last.value) as real;
      var s1 := s.(last := Some(t));
      if s1.period.None? then
        StepCount(if interval > 0.0 then s1.(period := Some(interval)) else s1, 1, t)
      else
        var period := s1.period.value;
        var r := Classify(interval, period);
        TeachIsPositive(interval, period);
        var s2 := s1.(residual := Trunc((if r.pulses > 1 then interval / r.pulses as real else interval) - period));
        var s3 := if r.teach.Some? then s2.(period := Some(period + EMA_ALPHA * (r.teach.value - period))) else s2;
        StepCount(if r.stall then s3.(discontinuities := s3.discontinuities + 1) else s3, r.pulses, t)
  }

  function Step(s: Est, e: ClockEvent): (r: (Est, Option<ClockEstimate>))
    requires s.Valid()
    ensures r.0.Valid()
  {
    match e
    case Pulse(t) => StepPulse(s, t)
    case Start(t) =>
      var s1 := s.(count := 0, running := true, anchored := true, last := Some(t), sinceEmit := 0);
      (s1, Emission(s1, t))
    case Continue(t) =>
      var s1 := s.(running := true, last := Some(t));
      (s1, Emission(s1, t))
    case Stop(_) => (s.(running := false), None)
    case SongPosition(t, n) =>
      var s1 := s.(count := n * 6, anchored := true, sinceEmit := 0);
      (s1, Emission(s1, t))
  }

  /** The estimator as the program holds it: fields updated by each event. */
  class ClockEstimator {
    var period: Option<real>
    var last: Option<nat>
    var count: nat
    var running: bool
    var anchored: bool
    var sinceEmit: nat
    var residual: int
    var discontinuities: nat

    ghost function State(): Est
      reads this
    {
      Est(period, last, count, running, anchored, sinceEmit, residual, discontinuities)
    }

    constructor ()
      ensures State() == New()
    {
      period, last, count, running := None, None, 0, true;
      anchored, sinceEmit, residual, discontinuities := false, 0, 0, 0;
    }

    method Observe(e: ClockEvent) returns (out: Option<ClockEstimate>)
      requires State().Valid()
      modifies this
      ensures (State(), out) == Step(old(State()), e)
      ensures State().Valid()
    {
      match e
      case Pulse(t) =>
        out := ObservePulse(t);
      case Start(t) =>
        count, running, anchored, last, sinceEmit := 0, true, true, Some(t), 0;
        out := EmitEstimate(t);
      case Continue(t) =>
        running, last := true, Some(t);
        out := EmitEstimate(t);
      case Stop(_) =>
        running := false;
        out := None;
      case SongPosition(t, n) =>
        count, anchored, sinceEmit := n * 6, true, 0;
        out := EmitEstimate(t);
    }

    method ObservePulse(t: nat) returns (out: Option<ClockEstimate>)
      requires State().Valid()
      modifies this
      ensures (State(), out) == StepPulse(old(State()), t)
    {
      if last.None? {
        last, anchored := Some(t), true;
        return None;
      }
      var interval := SatSub(t, last.value) as real;
      last := Some(t);
      if period.None? {
        if interval > 0.0 {
          period := Some(interval);
        }
        out := CountPulse(1, t);
        return;
      }
      var p := period.value;
      var ratio := interval / p;
      assert ratio * p == interval;
      residual := Trunc(interval - p);
      if ACCEPT_LOW <= ratio <= ACCEPT_HIGH {
        period := Some(p + EMA_ALPHA * (interval - p));
        out := CountPulse(1, t);
      } else if ratio > ACCEPT_HIGH && ratio <= DROPOUT_HIGH {
        var k := Round(ratio);
        if Abs(ratio - k as real) <= DROPOUT_TOLERANCE && k >= 2 {
          var per := interval / k as real;
          assert per > 0.0;
          period := Some(p + EMA_ALPHA * (per - p));
          residual := Trunc(per - p);
          out := CountPulse(k, t);
        } else {
          out := CountPulse(1, t);
        }
      } else if ratio > DROPOUT_HIGH {
        discontinuities := discontinuities + 1;
        out := CountPulse(1, t);
      } else {
        out := CountPulse(1, t);
      }
    }

    method CountPulse(n: nat, t: nat) returns (out: Option<ClockEstimate>)
      requires State().Valid()
      modifies this`count, this`sinceEmit
      ensures (State(), out) == StepCount(old(State()), n, t)
    {
      if !running {
        return None;
      }
      count := count + n;
      sinceEmit := sinceEmit + n;
      if sinceEmit >= PULSES_PER_BEAT {
        sinceEmit := 0;
        out := EmitEstimate(t);
      } else {
        out := None;
      }
    }

    method EmitEstimate(t: nat) returns (out: Option<ClockEstimate>)
      requires State().Valid()
      ensures out == Emission(State(), t)
    {
      if period.None? || !anchored {
        return None;
      }
      out := Some(ClockEstimate(
                    BeatRef(count as real / PULSES_PER_BEAT as real,
                        1000000000.0 / (period.value * PULSES_PER_BEAT as real), 0),
                    t, residual));
    }
  }

  // ---------------------------------------------------------------------
  // The master: a clock of true period P, seen through jitter and dropouts
  // ---------------------------------------------------------------------

  /** What the master does next. `Tick(i, k)` is the next pulse that gets
      through, `i` ns after the previous timing mark, k periods later; the
      others are transport messages (a Start or Continue is a timing mark). */
  datatype Mark = Tick(interval: nat, k: nat) | Go(t: nat) | Resume(t: nat) | Halt(t: nat) | Seek(t: nat,
      sixteenths: nat)

  function EventOf(m: Mark, last: nat): ClockEvent {
    match m
    case Tick(i, _) => Pulse(last + i)
    case Go(t) => Start(t)
    case Resume(t) => Continue(t)
    case Halt(t) => Stop(t)
    case Seek(t, n) => SongPosition(t, n)
  }

  /** The true song position, in pulses, and the transport gate. */
  datatype Ledger = Ledger(position: nat, running: bool)

  function Advance(l: Ledger, m: Mark): Ledger {
    match m
    case Tick(_, k) => if l.running then l.(position := l.position + k) else l
    case Go(_) => Ledger(0, true)
    case Resume(_) => l.(running := true)
    case Halt(_) => l.(running := false)
    case Seek(_, n) => l.(position := 6 * n)
  }

  /** Every pulse that gets through is 1 to 4 periods after the last mark,
      within jitter J; until the estimator has a period the gap is one period. */
  ghost predicate Steady(P: real, J: real, seeded: bool, marks: seq<Mark>)
    decreases |marks|
  {
    marks == [] ||
    (var m := marks[0];
     && (m.Tick? ==>
           && 1 <= m.k <= (if seeded then 4 else 1)
           && Abs(m.interval as real - m.k as real * P) <= J)
     && Steady(P, J, seeded || m.Tick?, marks[1..]))
  }

  /** The run: the estimator's state and the true ledger after each mark. */
  datatype Frame = Frame(est: Est, out: Option<ClockEstimate>, truth: Ledger)

  ghost function Run(s: Est, l: Ledger, marks: seq<Mark>): seq<Frame>
    requires s.Valid() && s.last.Some?
    decreases |marks|
  {
    if marks == [] then []
    else
      var r := Step(s, EventOf(marks[0], s.last.value));
      var l' := Advance(l, marks[0]);
      [Frame(r.0, r.1, l')] + Run(r.0, l', marks[1..])
  }

  ghost predicate InBand(p: real, P: real, J: real) {
    P - J <= p <= P + J
  }

  /** The estimator agrees with the master. */
  ghost predicate Locked(s: Est, l: Ledger, P: real, J: real, seeded: bool) {
    && s.Valid() && s.last.Some?
    && s.count == l.position && s.running == l.running
    && s.anchored && s.discontinuities == 0 && s.sinceEmit < PULSES_PER_BEAT
    && (seeded <==> s.period.Some?)
    && (seeded ==> InBand(s.period.value, P, J))
  }

  /** An emitted correction is the true position, at a tempo no further from
      the true one than the jitter band allows. */
  ghost predicate Faithful(e: ClockEstimate, l: Ledger, P: real, J: real)
    requires 0.0 <= J < P
  {
    && e.reference.beat == l.position as real / 24.0
    && 1000000000.0 / (24.0 * (P + J)) <= e.reference.tempoBps <= 1000000000.0 / (24.0 * (P - J))
  }

  /** The heart of it: inside the band, k true periods read as exactly k, and
      what the interval teaches is itself inside the band. */
  lemma {:induction false} ReadsExactly(i: real, k: nat, p: real, P: real, J: real)
    requires P > 0.0 && J >= 0.0 && 21.0 * J <= P
    requires InBand(p, P, J)
    requires 1 <= k <= 4 && Abs(i - k as real * P) <= J
    ensures p > 0.0 && i >= 0.0
    ensures var r := Classify(i, p); r.pulses == k && !r.stall && r.teach.Some? && InBand(r.teach.value, P, J)
  {
    var kr: real := if k == 1 then 1.0 else if k == 2 then 2.0 else if k == 3 then 3.0 else 4.0;
    assert kr == k as real;
    assert k as real * P == if k == 1 then P else if k == 2 then 2.0 * P else if k == 3 then 3.0 * P else 4.0 * P;
    if k == 1 {
      DivBetween(i, p, 0.9, 1.1);
    } else {
      DivBetween(i, p, kr - 0.25, kr + 0.25);
      assert Round(i / p) == k;
      DivBetween(i, kr, P - J, P + J);
    }
  }

  lemma {:induction false} TempoInBand(p: real, P: real, J: real)
    requires 0.0 <= J < P && InBand(p, P, J)
    ensures 1000000000.0 / (24.0 * (P + J)) <= 1000000000.0 / (p * 24.0) <= 1000000000.0 / (24.0 * (P - J))
  {
    var b := 1000000000.0;
    var hi, lo, x := 24.0 * (P + J), 24.0 * (P - J), p * 24.0;
    assert 0.0 < lo <= x <= hi;
    Antitone(b, x, hi);
    Antitone(b, lo, x);
  }

  lemma {:induction false} Antitone(b: real, x: real, y: real)
    requires b > 0.0 && 0.0 < x <= y
    ensures b / y <= b / x
  {
    var q := b / y;
    assert q * y == b && q >= 0.0;
    assert q * x <= q * y;
    DivBetween(b, x, q, b / x);
  }

  /** A pulse on a locked estimator counts its true periods and stays in the band. */
  lemma {:induction false} TickStaysLocked(s: Est, l: Ledger, P: real, J: real, m: Mark)
    requires P > 0.0 && J >= 0.0 && 21.0 * J <= P
    requires Locked(s, l, P, J, true)
    requires m.Tick? && 1 <= m.k <= 4 && Abs(m.interval as real - m.k as real * P) <= J
    ensures Locked(Step(s, EventOf(m, s.last.value)).0, Advance(l, m), P, J, true)
  {
    var p := s.period.value;
    ReadsExactly(m.interval as real, m.k, p, P, J);
    var c := Classify(m.interval as real, p);
    assert SatSub(s.last.value + m.interval, s.last.value) == m.interval;
    var p' := Step(s, EventOf(m, s.last.value)).0.period.value;
    assert p' == p + EMA_ALPHA * (c.teach.value - p);
  }

  /** One mark keeps the estimator locked. */
  lemma {:induction false} StepStaysLocked(s: Est, l: Ledger, P: real, J: real, seeded: bool, m: Mark)
    requires P > 0.0 && J >= 0.0 && 21.0 * J <= P
    requires Locked(s, l, P, J, seeded)
    requires Steady(P, J, seeded, [m])
    ensures Locked(Step(s, EventOf(m, s.last.value)).0, Advance(l, m), P, J, seeded || m.Tick?)
  {
    if m.Tick? {
      if seeded {
        TickStaysLocked(s, l, P, J, m);
      } else {
        assert m.k as real * P == P;
        assert SatSub(s.last.value + m.interval, s.last.value) == m.interval;
      }
    }
  }

  /** Whatever a step that ends locked emits is faithful. */
  lemma {:induction false} EmitsFaithfully(s: Est, e: ClockEvent, l: Ledger, P: real, J: real, seeded: bool)
    requires 0.0 <= J < P && s.Valid()
    requires Locked(Step(s, e).0, l, P, J, seeded)
    ensures Step(s, e).1.Some? ==> Faithful(Step(s, e).1.value, l, P, J)
  {
    var r := Step(s, e);
    if r.1.Some? {
      EmissionOfTheNewState(s, e);
      TempoInBand(r.0.period.value, P, J);
    }
  }

  lemma {:induction false} EmissionOfTheNewState(s: Est, e: ClockEvent)
    requires s.Valid()
    ensures Step(s, e).1.Some? ==> Step(s, e).1 == Emission(Step(s, e).0, e.t)
  {
  }

  /** Phase never slips, over every run of pulses, dropouts and transport:
      after each mark the count is the true position, no stall is recorded,
      the learned period is in the jitter band and every correction is faithful. */
  lemma {:induction false} PhaseNeverSlips(s: Est, l: Ledger, P: real, J: real, seeded: bool, marks: seq<Mark>)
    requires P > 0.0 && J >= 0.0 && 21.0 * J <= P
    requires Locked(s, l, P, J, seeded)
    requires Steady(P, J, seeded, marks)
    ensures var f := Run(s, l, marks);
            && |f| == |marks|
            && forall i :: 0 <= i < |f| ==>
                 && Locked(f[i].est, f[i].truth, P, J, f[i].est.period.Some?)
                 && (f[i].out.Some? ==> Faithful(f[i].out.value, f[i].truth, P, J))
    decreases |marks|
  {
    if marks != [] {
      var m := marks[0];
      assert Steady(P, J, seeded, [m]);
      StepStaysLocked(s, l, P, J, seeded, m);
      EmitsFaithfully(s, EventOf(m, s.last.value), Advance(l, m), P, J, seeded || m.Tick?);
      PhaseNeverSlips(Step(s, EventOf(m, s.last.value)).0, Advance(l, m), P, J, seeded || m.Tick?, marks[1..]);
    }
  }

  /** The estimator just after it has its first timing mark: a first pulse or a Start. */
  ghost function Anchored(t0: nat, byStart: bool): Est {
    Step(New(), if byStart then Start(t0) else Pulse(t0)).0
  }

  /** The count is the true position at the end of every steady run. */
  ghost predicate NeverSlips(P: real, J: real) {
    forall t0: nat, byStart: bool, marks: seq<Mark> | Steady(P, J, false, marks) ::
      forall i | 0 <= i < |Run(Anchored(t0, byStart), Ledger(0, true), marks)| ::
        var f := Run(Anchored(t0, byStart), Ledger(0, true), marks)[i];
        f.est.count == f.truth.position
  }

  /** Read against a period learned J short, four periods and J read as one pulse. */
  lemma {:induction false} LongGapMisread(i: real, p: real)
    requires p > 0.0 && i > 4.25 * p
    ensures Classify(i, p).pulses == 1
  {
    var ratio := i / p;
    assert ratio > 4.25 by {
      assert ratio * p == i;
      MulOrder(4.25, ratio, p);
    }
    if ratio <= DROPOUT_HIGH {
      assert Round(ratio) == 4 || Round(ratio) == 5;
    }
  }

  /** A run that slips as soon as the jitter bound passes one 21st of the
      period: a short first period, then a long four-period gap. */
  lemma {:induction false} JitterPastTheBoundSlips(P: nat, J: nat, t0: nat)
    requires P < 21 * J && J < P
    ensures var marks := [Tick(P - J, 1), Tick(4 * P + J, 4)];
            && Steady(P as real, J as real, false, marks)
            && var f := Run(Anchored(t0, false), Ledger(0, true), marks);
               |f| == 2 && f[1].est.count == 2 && f[1].truth.position == 5
  {
    var first, second := Tick(P - J, 1), Tick(4 * P + J, 4);
    var marks := [first, second];
    assert marks[1..] == [second] && [second][1..] == [];
    SlippingRunIsSteady(P, J);
    var s1 := Step(Anchored(t0, false), EventOf(first, t0)).0;
    assert s1.period == Some((P - J) as real) && s1.count == 1;
    LongGapMisread((4 * P + J) as real, (P - J) as real);
    var l1 := Advance(Ledger(0, true), first);
    var r2, l2 := Step(s1, EventOf(second, s1.last.value)), Advance(l1, second);
    assert Run(r2.0, l2, []) == [];
    assert Run(s1, l1, [second]) == [Frame(r2.0, r2.1, l2)];
  }

  lemma {:induction false} SlippingRunIsSteady(P: nat, J: nat)
    requires J < P
    ensures Steady(P as real, J as real, false, [Tick(P - J, 1), Tick(4 * P + J, 4)])
  {
    var first, second := Tick(P - J, 1), Tick(4 * P + J, 4);
    assert [first, second][1..] == [second] && [second][1..] == [];
    assert second.k as real * (P as real) == 4.0 * P as real && first.k as real * (P as real) == P as real;
    assert Steady(P as real, J as real, true, [second]);
  }

  /** One 21st is the exact jitter tolerance of the classifier. */
  lemma {:induction false} JitterTolerance(P: nat, J: nat)
    requires J < P
    ensures NeverSlips(P as real, J as real) <==> 21 * J <= P
  {
    if 21 * J <= P {
      forall t0: nat, byStart: bool, marks: seq<Mark> | Steady(P as real, J as real, false, marks)
        ensures forall i | 0 <= i < |Run(Anchored(t0, byStart), Ledger(0, true), marks)| ::
                  var f := Run(Anchored(t0, byStart), Ledger(0, true), marks)[i];
                  f.est.count == f.truth.position
      {
        PhaseNeverSlips(Anchored(t0, byStart), Ledger(0, true), P as real, J as real, false, marks);
      }
    } else {
      JitterPastTheBoundSlips(P, J, 0);
      var marks := [Tick(P - J, 1), Tick(4 * P + J, 4)];
      var f := Run(Anchored(0, false), Ledger(0, true), marks)[1];
      assert f.est.count != f.truth.position;
    }
  }
}
