/** Which estimates the clock estimator gives over a steady run, told from the
    master's marks alone; and how fast it learns a constant tempo. */
module ClockReports {
  import opened Prelude
  import opened Timebase
  import opened ClockIn

  // ------------------------------------------------------ from the marks

  /** What the marks so far come to: the last timing mark, the true periods
      since the last report, the period the intervals teach, and how far the last
      interval, per period, was from the period taught before it. */
  datatype Ear = Ear(last: nat, since: nat, period: Option<real>, residual: int)

  /** The time of one period of the gap before a pulse. */
  function PerPeriod(m: Mark): real
    requires m.Tick?
  {
    if m.k <= 1 then m.interval as real else m.interval as real / m.k as real
  }

  function Hear(x: Ear, running: bool, m: Mark): Ear {
    match m
    case Tick(i, k) =>
      var gap := PerPeriod(m);
      var since := if !running then x.since else if x.since + k >= 24 then 0 else x.since + k;
      if x.period.None? then Ear(x.last + i, since, Some(gap), x.residual)
      else Ear(x.last + i, since, Some(x.period.value + 0.05 * (gap - x.period.value)), Trunc(gap - x.period.value))
    case Go(t) => x.(last := t, since := 0)
    case Resume(t) => x.(last := t)
    case Halt(_) => x
    case Seek(_, _) => x.(since := 0)
  }

  /** The true position in beats, at the tempo taught, at an instant. */
  function Report(x: Ear, l: Ledger, t: nat): Option<ClockEstimate> {
    if x.period.None? || x.period.value <= 0.0 then None
    else
      var beat := BeatRef(l.position as real / 24.0, 1000000000.0 / (x.period.value * 24.0), 0);
      Some(ClockEstimate(beat, t, x.residual))
  }

  /** The report due at a mark: at each transport message but a stop, once a
      period is known; and at the pulse that makes it 24 periods since the last. */
  function Due(x: Ear, l: Ledger, m: Mark): Option<ClockEstimate> {
    var x', l' := Hear(x, l.running, m), Advance(l, m);
    match m
    case Tick(i, k) => if l.running && x.since + k >= 24 then Report(x', l', x.last + i) else None
    case Go(t) => Report(x', l', t)
    case Resume(t) => Report(x', l', t)
    case Halt(_) => None
    case Seek(t, _) => Report(x', l', t)
  }

  function Dues(x: Ear, l: Ledger, marks: seq<Mark>): seq<Option<ClockEstimate>>
    decreases |marks|
  {
    if marks == [] then []
    else [Due(x, l, marks[0])] + Dues(Hear(x, l.running, marks[0]), Advance(l, marks[0]), marks[1..])
  }

  // --------------------------------------------------- the estimator does

  ghost predicate Matches(s: Est, x: Ear) {
    s.last == Some(x.last) && s.sinceEmit == x.since && s.period == x.period && s.residual == x.residual
  }

  lemma {:induction false} TickReports(s: Est, l: Ledger, x: Ear, P: real, J: real, m: Mark)
    requires P > 0.0 && J >= 0.0 && 21.0 * J <= P
    requires Locked(s, l, P, J, true) && Matches(s, x)
    requires m.Tick? && 1 <= m.k <= 4 && Abs(m.interval as real - m.k as real * P) <= J
    ensures var r := Step(s, EventOf(m, x.last)); Matches(r.0, Hear(x, l.running, m)) && r.1 == Due(x, l, m)
  {
    var p, i := s.period.value, m.interval as real;
    ReadsExactly(i, m.k, p, P, J);
    TaughtExactly(i, m.k, p, m);
    assert SatSub(x.last + m.interval, x.last) == m.interval;
    TickStaysLocked(s, l, P, J, m);
  }

  /** What a reading of k periods teaches is the interval per period. */
  lemma {:induction false} TaughtExactly(i: real, k: nat, p: real, m: Mark)
    requires p > 0.0 && i >= 0.0 && m.Tick? && m.k == k && m.interval as real == i
    requires var r := Classify(i, p); r.pulses == k && r.teach.Some?
    ensures Classify(i, p).teach == Some(PerPeriod(m)) && k >= 1
    ensures (if k > 1 then i / k as real else i) == PerPeriod(m)
  {
  }

  lemma {:induction false} FirstTickReports(s: Est, l: Ledger, x: Ear, P: real, J: real, m: Mark)
    requires P > 0.0 && J >= 0.0 && 21.0 * J <= P
    requires Locked(s, l, P, J, false) && Matches(s, x) && m.Tick? && m.k == 1 && Abs(m.interval as real - P) <= J
    ensures var r := Step(s, EventOf(m, x.last)); Matches(r.0, Hear(x, l.running, m)) && r.1 == Due(x, l, m)
  {
    assert SatSub(x.last + m.interval, x.last) == m.interval;
  }

  lemma {:induction false} TransportReports(s: Est, l: Ledger, x: Ear, P: real, J: real, seeded: bool, m: Mark)
    requires Locked(s, l, P, J, seeded) && Matches(s, x) && !m.Tick?
    ensures var r := Step(s, EventOf(m, x.last)); Matches(r.0, Hear(x, l.running, m)) && r.1 == Due(x, l, m)
  {
  }

  lemma {:induction false} OnePeriod(P: real, J: real, m: Mark)
    requires m.Tick? && Steady(P, J, false, [m])
    ensures m.k == 1 && Abs(m.interval as real - P) <= J
  {
    assert m.k as real * P == P;
  }

  lemma {:induction false} SomePeriods(P: real, J: real, m: Mark)
    requires m.Tick? && Steady(P, J, true, [m])
    ensures 1 <= m.k <= 4 && Abs(m.interval as real - m.k as real * P) <= J
  {
  }

  lemma {:induction false} PulseReports(s: Est, l: Ledger, x: Ear, P: real, J: real, seeded: bool, m: Mark)
    requires P > 0.0 && J >= 0.0 && 21.0 * J <= P && m.Tick?
    requires Locked(s, l, P, J, seeded) && Matches(s, x) && Steady(P, J, seeded, [m])
    ensures var r := Step(s, EventOf(m, x.last)); Matches(r.0, Hear(x, l.running, m)) && r.1 == Due(x, l, m)
  {
    if seeded {
      SomePeriods(P, J, m);
      TickReports(s, l, x, P, J, m);
    } else {
      OnePeriod(P, J, m);
      FirstTickReports(s, l, x, P, J, m);
    }
  }

  lemma {:induction false} MarkReports(s: Est, l: Ledger, x: Ear, P: real, J: real, seeded: bool, m: Mark)
    returns (s1: Est)
    requires P > 0.0 && J >= 0.0 && 21.0 * J <= P
    requires Locked(s, l, P, J, seeded) && Matches(s, x) && Steady(P, J, seeded, [m])
    ensures s1 == Step(s, EventOf(m, x.last)).0 && Step(s, EventOf(m, x.last)).1 == Due(x, l, m)
    ensures Matches(s1, Hear(x, l.running, m)) && Locked(s1, Advance(l, m), P, J, seeded || m.Tick?)
  {
    s1 := Step(s, EventOf(m, x.last)).0;
    StepStaysLocked(s, l, P, J, seeded, m);
    if m.Tick? {
      PulseReports(s, l, x, P, J, seeded, m);
    } else {
      TransportReports(s, l, x, P, J, seeded, m);
    }
  }

  /** The estimates of a run. */
  ghost function Outputs(f: seq<Frame>): seq<Option<ClockEstimate>> {
    if f == [] then [] else [f[0].out] + Outputs(f[1..])
  }

  lemma {:induction false} RunOn(s: Est, l: Ledger, marks: seq<Mark>)
    requires s.Valid() && s.last.Some? && marks != []
    ensures var r := Step(s, EventOf(marks[0], s.last.value));
            Outputs(Run(s, l, marks)) == [r.1] + Outputs(Run(r.0, Advance(l, marks[0]), marks[1..]))
  {
    var r, l' := Step(s, EventOf(marks[0], s.last.value)), Advance(l, marks[0]);
    var rest := Run(r.0, l', marks[1..]);
    assert ([Frame(r.0, r.1, l')] + rest)[1..] == rest;
  }

  /** Over every steady run within the jitter tolerance the estimates are exactly
      the reports due. */
  lemma {:induction false} ReportsOnTheBeat(s: Est, l: Ledger, x: Ear, P: real, J: real, seeded: bool, marks: seq<Mark>)
    requires P > 0.0 && J >= 0.0 && 21.0 * J <= P
    requires Locked(s, l, P, J, seeded) && Matches(s, x) && Steady(P, J, seeded, marks)
    ensures Outputs(Run(s, l, marks)) == Dues(x, l, marks)
    decreases |marks|
  {
    if marks != [] {
      var m := marks[0];
      assert Steady(P, J, seeded, [m]);
      var s1 := MarkReports(s, l, x, P, J, seeded, m);
      RunOn(s, l, marks);
      ReportsOnTheBeat(s1, Advance(l, m), Hear(x, l.running, m), P, J, seeded || m.Tick?, marks[1..]);
    }
  }

  /** As from the first pulse or the first Start. */
  lemma {:induction false} ReportsFromTheStart(P: real, J: real, t0: nat, byStart: bool, marks: seq<Mark>)
    requires P > 0.0 && J >= 0.0 && 21.0 * J <= P && Steady(P, J, false, marks)
    ensures Outputs(Run(Anchored(t0, byStart), Ledger(0, true), marks))
            == Dues(Ear(t0, 0, None, 0), Ledger(0, true), marks)
  {
    ReportsOnTheBeat(Anchored(t0, byStart), Ledger(0, true), Ear(t0, 0, None, 0), P, J, false, marks);
  }

  // ------------------------------------------------- unsteady intervals

  /** Within a quarter period of k periods. */
  predicate Near(i: real, k: real, p: real) {
    Abs(i - k * p) <= 0.25 * p
  }

  /** An interval that can be read: three quarters to four thirds of a period,
      or near two, three or four. */
  predicate Readable(i: real, p: real) {
    0.75 * p <= i <= 1.33 * p || Near(i, 2.0, p) || Near(i, 3.0, p) || Near(i, 4.0, p)
  }

  lemma {:induction false} RatioBound(i: real, p: real, c: real)
    requires p > 0.0
    ensures i / p <= c <==> i <= c * p
    ensures i / p >= c <==> i >= c * p
  {
    var q := i / p;
    assert q * p == i;
    if q <= c {
      assert (c - q) * p >= 0.0;
    } else {
      assert (q - c) * p > 0.0;
    }
  }

  /** How every interval is read, without the ratio: as one period, or as the
      multiple it is near; anything else counts as one pulse and teaches nothing,
      and is a stall exactly beyond four and a half periods. */
  lemma {:induction false} EveryIntervalIsRead(i: real, p: real)
    requires p > 0.0 && i >= 0.0
    ensures var r := Classify(i, p);
            && (r.teach.Some? <==> Readable(i, p)) && (r.stall <==> i > 4.5 * p)
            && r.pulses ==
               (if Near(i, 2.0, p) then 2 else if Near(i, 3.0, p) then 3 else if Near(i, 4.0, p) then 4 else 1)
            && (r.teach.Some? ==> r.teach.value * r.pulses as real == i)
  {
    var q := i / p;
    RatioBound(i, p, 0.75);
    RatioBound(i, p, 1.33);
    RatioBound(i, p, 4.5);
    NearRatio(i, p, 2.0);
    NearRatio(i, p, 3.0);
    NearRatio(i, p, 4.0);
    if 1.33 < q <= 4.5 {
      assert Round(q) == if q < 1.5 then 1 else if q < 2.5 then 2 else if q < 3.5 then 3 else if q < 4.5 then 4 else 5;
    }
  }

  lemma {:induction false} NearRatio(i: real, p: real, k: real)
    requires p > 0.0
    ensures Near(i, k, p) <==> Abs(i / p - k) <= 0.25
  {
    RatioBound(i, p, k + 0.25);
    RatioBound(i, p, k - 0.25);
    assert (k + 0.25) * p == k * p + 0.25 * p && (k - 0.25) * p == k * p - 0.25 * p;
  }

  /** A pulse after an interval that cannot be read counts one while running,
      leaves the period, and is recorded as a stall exactly beyond four and a
      half periods. */
  lemma {:induction false} UnreadablePulse(s: Est, d: nat)
    requires s.Valid() && s.last.Some? && s.period.Some? && !Readable(d as real, s.period.value)
    ensures var s' := Step(s, Pulse(s.last.value + d)).0;
            && s'.period == s.period && s'.last == Some(s.last.value + d) && s'.running == s.running
            && s'.count == s.count + (if s.running then 1 else 0)
            && s'.discontinuities == s.discontinuities + (if d as real > 4.5 * s.period.value then 1 else 0)
  {
    EveryIntervalIsRead(d as real, s.period.value);
    assert SatSub(s.last.value + d, s.last.value) == d;
    assert !Near(d as real, 2.0, s.period.value);
  }

  // ------------------------------------------------------------ learning

  function Ticks(d: nat, n: nat): seq<Mark> {
    if n == 0 then [] else [Tick(d, 1)] + Ticks(d, n - 1)
  }

  /** An error of which each of n pulses leaves nineteen twentieths. */
  function ErrorAfter(e: real, n: nat): real
    decreases n
  {
    if n == 0 then e else ErrorAfter(0.95 * e, n - 1)
  }

  function EndOf(s: Est, marks: seq<Mark>): (r: Est)
    requires s.Valid() && s.last.Some?
    ensures r.Valid()
    decreases |marks|
  {
    if marks == [] then s else EndOf(Step(s, EventOf(marks[0], s.last.value)).0, marks[1..])
  }

  lemma {:induction false} OnePulseLearns(s: Est, d: nat)
    requires s.Valid() && s.last.Some? && s.period.Some? && 0.75 * s.period.value <= d as real <= 1.33 * s.period.value
    ensures var s' := Step(s, EventOf(Tick(d, 1), s.last.value)).0;
            && s'.last.Some? && s'.period.Some? && s'.period.value - d as real == 0.95 * (s.period.value - d as real)
            && 0.75 * s'.period.value <= d as real <= 1.33 * s'.period.value
  {
    var p := s.period.value;
    DivBetween(d as real, p, 0.75, 1.33);
    assert SatSub(s.last.value + d, s.last.value) == d;
  }

  /** From any learned period the constant interval is accepted against, each
      pulse takes a twentieth off the error. */
  lemma {:induction false} LearnsAConstantTempo(s: Est, d: nat, n: nat)
    requires s.Valid() && s.last.Some? && s.period.Some? && 0.75 * s.period.value <= d as real <= 1.33 * s.period.value
    ensures var s' := EndOf(s, Ticks(d, n));
            s'.period.Some? && s'.period.value - d as real == ErrorAfter(s.period.value - d as real, n)
    decreases n
  {
    if n > 0 {
      OnePulseLearns(s, d);
      var s1 := OnePulse(s, d, n);
      LearnsAConstantTempo(s1, d, n - 1);
    }
  }

  lemma {:induction false} OnePulse(s: Est, d: nat, n: nat) returns (s1: Est)
    requires s.Valid() && s.last.Some? && n > 0
    ensures s1.Valid() && s1 == Step(s, EventOf(Tick(d, 1), s.last.value)).0
    ensures s1.last.Some? ==> EndOf(s, Ticks(d, n)) == EndOf(s1, Ticks(d, n - 1))
  {
    s1 := Step(s, EventOf(Tick(d, 1), s.last.value)).0;
    assert Ticks(d, n)[1..] == Ticks(d, n - 1);
  }

  /** So it goes to nothing: half of it at most is left after fourteen pulses. */
  lemma {:induction false} ErrorHalves(e: real, n: nat)
    requires e >= 0.0 && n >= 14
    ensures 0.0 <= ErrorAfter(e, n) <= 0.5 * ErrorAfter(e, n - 14)
    decreases n
  {
    if n == 14 {
      Shrinks(e);
    } else {
      ErrorHalves(0.95 * e, n - 1);
    }
  }

  lemma {:induction false} Shrinks(e: real)
    requires e >= 0.0
    ensures 0.0 <= ErrorAfter(e, 14) <= 0.5 * e
  {
    var a := 0.95 * 0.95 * 0.95 * e;
    var b := 0.95 * 0.95 * 0.95 * 0.95 * a;
    var c := 0.95 * 0.95 * 0.95 * 0.95 * b;
    assert ErrorAfter(e, 14) == ErrorAfter(a, 11);
    assert ErrorAfter(a, 11) == ErrorAfter(b, 7);
    assert ErrorAfter(b, 7) == ErrorAfter(c, 3);
  }
}
