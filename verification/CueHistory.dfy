/** What becomes of each command the audio scheduler receives, told from the
    steps of a run alone. */
module CueHistory {
  import opened Prelude
  import opened Scheduler

  type Steps = seq<(Step, nat)>

  // ---------------------------------------------------------------- fates

  /** A command's fate so far: not received yet; nothing to play; waiting for
      its own deadline; fired, at an instant, for a deadline, and still sounding
      or not; flushed before its time. */
  datatype Fate =
    | Unknown
    | Silent
    | Waiting(deadline: nat)
    | Fired(at: nat, deadline: nat, sounding: bool)
    | Flushed

  /** How many commands were received. */
  function Received(steps: Steps): nat {
    if steps == [] then 0
    else Received(steps[..|steps| - 1]) + if steps[|steps| - 1].0.Receive? then 1 else 0
  }

  /** What a command received at an instant comes to at once. */
  function OnArrival(c: Command, now: nat): Fate {
    match c
    case PlayNow(decodes) => if decodes then Fired(now, now, true) else Silent
    case PlayAt(deadline, decodes) =>
      if !decodes then Silent else if deadline <= now then Fired(now, deadline, true) else Waiting(deadline)
    case FlushAll => Silent
  }

  /** What a later step does to command k. */
  function Later(f: Fate, k: nat, a: Step, now: nat): Fate {
    match f
    case Waiting(deadline) =>
      if a.TimeOut? && deadline <= now then Fired(now, deadline, true)
      else if a == Receive(FlushAll) then Flushed
      else f
    case Fired(at, deadline, sounding) =>
      Fired(at, deadline, sounding && a != Receive(FlushAll) && !(a.Prune? && k in a.ended))
    case _ => f
  }

  /** The fate of the k-th command. */
  function FateOf(steps: Steps, k: nat): Fate
    decreases |steps|
  {
    if steps == [] then Unknown
    else
      var n := |steps| - 1;
      var (a, now) := steps[n];
      if a.Receive? && k == Received(steps[..n]) + 1 then OnArrival(a.c, now)
      else Later(FateOf(steps[..n], k), k, a, now)
  }

  // -------------------------------------------------- the run tells them

  /** A command was fired at an instant for a deadline. */
  ghost predicate FiredAs(s: Sched, k: nat, at: nat, deadline: nat) {
    exists i :: 0 <= i < |s.fired| && s.fired[i].command == k && s.fired[i].at == at && s.fired[i].deadline == deadline
  }

  ghost predicate Pends(s: Sched, k: nat, deadline: nat) {
    exists e :: e in s.pending && e.command == k && e.deadline == deadline
  }

  /** What the scheduler has fired, has pending and has sounding of command k is
      what its fate says. */
  ghost predicate Tells(s: Sched, k: nat, f: Fate) {
    && (forall at: nat, deadline: nat :: FiredAs(s, k, at, deadline)
                                         <==> f.Fired? && f.at == at && f.deadline == deadline)
    && (forall deadline: nat :: Pends(s, k, deadline) <==> f == Waiting(deadline))
    && (k in s.live <==> f.Fired? && f.sounding)
  }

  /** Of commands not received nothing is known. */
  ghost predicate Numbered(s: Sched) {
    && (forall i :: 0 <= i < |s.fired| ==> 1 <= s.fired[i].command <= s.handled)
    && (forall e :: e in s.pending ==> 1 <= e.command <= s.handled)
    && forall k :: k in s.live ==> 1 <= k <= s.handled
  }

  lemma {:induction false} FiresOne(s: Sched, k: nat, deadline: nat, now: nat, x: nat)
    ensures forall at: nat, d: nat :: FiredAs(FireOne(s, k, deadline, now), x, at, d)
                            <==> FiredAs(s, x, at, d) || (x == k && at == now && d == deadline)
    ensures x in FireOne(s, k, deadline, now).live <==> x in s.live || x == k
    ensures forall d: nat :: Pends(FireOne(s, k, deadline, now), x, d) <==> Pends(s, x, d)
  {
    var s' := FireOne(s, k, deadline, now);
    forall at: nat, d: nat
      ensures FiredAs(s', x, at, d) <==> FiredAs(s, x, at, d) || (x == k && at == now && d == deadline)
    {
      if FiredAs(s, x, at, d) {
        var i :| 0 <= i < |s.fired| && s.fired[i].command == x && s.fired[i].at == at && s.fired[i].deadline == d;
        assert s'.fired[i] == s.fired[i];
      }
      if x == k && at == now && d == deadline {
        assert s'.fired[|s.fired|] == Firing(k, now, deadline, s.lastFlush);
      }
    }
  }

  /** A command just received meets its fate at once, or waits. */
  lemma {:induction false} ArrivalTells(s: Sched, c: Command, now: nat)
    requires Numbered(s)
    ensures Tells(HandleCmd(s, c, now), s.handled + 1, OnArrival(c, now))
  {
    var k := s.handled + 1;
    var s1 := s.(handled := k);
    assert forall at: nat, d: nat :: !FiredAs(s1, k, at, d);
    assert forall d: nat :: !Pends(s1, k, d);
    match c
    case PlayNow(decodes) => FiresOne(s1, k, now, now, k);
    case PlayAt(deadline, decodes) =>
      FiresOne(s1, k, deadline, now, k);
      assert k !in s1.live;
      if decodes && deadline > now {
        var e := Entry(deadline, s1.nextSeq + 1, k);
        Queues(s1, e, k);
        var s2 := s1.(nextSeq := s1.nextSeq + 1, pending := Insert(s1.pending, e));
        assert HandleCmd(s, c, now) == s2;
        forall d: nat
          ensures Pends(s2, k, d) <==> d == deadline
        {
          assert Pends(s2, k, d) <==> Pends(s1, k, d) || (k == e.command && d == e.deadline);
          assert !Pends(s1, k, d);
        }
      }
    case FlushAll =>
  }

  lemma {:induction false} Queues(s: Sched, e: Entry, x: nat)
    ensures var s' := s.(nextSeq := s.nextSeq + 1, pending := Insert(s.pending, e));
            && (forall d: nat :: Pends(s', x, d) <==> Pends(s, x, d) || (x == e.command && d == e.deadline))
            && forall at: nat, d: nat :: FiredAs(s', x, at, d) <==> FiredAs(s, x, at, d)
  {
    InsertMembers(s.pending, e);
    var s' := s.(nextSeq := s.nextSeq + 1, pending := Insert(s.pending, e));
    forall d: nat
      ensures Pends(s', x, d) <==> Pends(s, x, d) || (x == e.command && d == e.deadline)
    {
      if Pends(s, x, d) {
        var f :| f in s.pending && f.command == x && f.deadline == d;
        assert f in s'.pending;
      }
      if x == e.command && d == e.deadline {
        assert e in s'.pending;
      }
    }
  }

  lemma {:induction false} CommandTells(s: Sched, c: Command, now: nat, k: nat, f: Fate)
    requires Numbered(s) && Tells(s, k, f) && k != s.handled + 1
    ensures Tells(HandleCmd(s, c, now), k, Later(f, k, Receive(c), now))
  {
    var s1 := s.(handled := s.handled + 1);
    assert forall at: nat, d: nat :: FiredAs(s1, k, at, d) <==> FiredAs(s, k, at, d);
    assert forall d: nat :: Pends(s1, k, d) <==> Pends(s, k, d);
    match c
    case PlayNow(decodes) => FiresOne(s1, s1.handled, now, now, k);
    case PlayAt(deadline, decodes) =>
      FiresOne(s1, s1.handled, deadline, now, k);
      Queues(s1, Entry(deadline, s1.nextSeq + 1, s1.handled), k);
    case FlushAll => FlushTells(s, k, f);
  }

  lemma {:induction false} FlushTells(s: Sched, k: nat, f: Fate)
    requires Tells(s, k, f)
    ensures Tells(s.(handled := s.handled + 1, pending := [], live := [], lastFlush := s.handled + 1), k,
                  Later(f, k, Receive(FlushAll), 0))
  {
    var s' := s.(handled := s.handled + 1, pending := [], live := [], lastFlush := s.handled + 1);
    assert forall at: nat, d: nat :: FiredAs(s', k, at, d) <==> FiredAs(s, k, at, d);
    assert forall d: nat :: !Pends(s', k, d);
  }

  lemma {:induction false} LiveKept(live: seq<nat>, ended: set<nat>, k: nat)
    ensures k in Without(live, ended) <==> k in live && k !in ended
  {
    if live != [] {
      LiveKept(live[1..], ended, k);
      assert live == [live[0]] + live[1..];
    }
  }

  lemma {:induction false} PruneTells(s: Sched, ended: set<nat>, now: nat, k: nat, f: Fate)
    requires Tells(s, k, f)
    ensures Tells(Apply(s, Prune(ended), now), k, Later(f, k, Prune(ended), now))
  {
    var s' := Apply(s, Prune(ended), now);
    LiveKept(s.live, ended, k);
    assert forall at: nat, d: nat :: FiredAs(s', k, at, d) <==> FiredAs(s, k, at, d);
    assert forall d: nat :: Pends(s', k, d) <==> Pends(s, k, d);
  }

  // ------------------------------------------------------------- a drain

  ghost predicate Among(es: seq<Entry>, k: nat, deadline: nat) {
    exists e :: e in es && e.command == k && e.deadline == deadline
  }

  lemma {:induction false} FiresThese(s: Sched, es: seq<Entry>, now: nat, k: nat)
    ensures var s' := FireAll(s, es, now);
            && s'.pending == s.pending
            && (forall at: nat, d: nat :: FiredAs(s', k, at, d)
                                          <==> FiredAs(s, k, at, d) || (at == now && Among(es, k, d)))
            && (k in s'.live <==> k in s.live || exists d: nat :: Among(es, k, d))
    decreases |es|
  {
    if es == [] {
      assert forall d: nat :: !Among(es, k, d);
    } else {
      var s1, rest := FireOne(s, es[0].command, es[0].deadline, now), es[1..];
      FiresOne(s, es[0].command, es[0].deadline, now, k);
      FiresThese(s1, rest, now, k);
      AmongNext(es, k);
    }
  }

  lemma {:induction false} AmongNext(es: seq<Entry>, k: nat)
    requires es != []
    ensures forall d: nat :: Among(es, k, d) <==> (es[0].command == k && es[0].deadline == d) || Among(es[1..], k, d)
    ensures (exists d: nat :: Among(es, k, d)) <==> es[0].command == k || exists d: nat :: Among(es[1..], k, d)
  {
    assert es == [es[0]] + es[1..];
    forall d: nat
      ensures Among(es, k, d) <==> (es[0].command == k && es[0].deadline == d) || Among(es[1..], k, d)
    {
      if es[0].command == k && es[0].deadline == d {
        assert es[0] in es;
      }
      if Among(es[1..], k, d) {
        var e :| e in es[1..] && e.command == k && e.deadline == d;
        assert e in es;
      }
    }
    if es[0].command == k {
      assert Among(es, k, es[0].deadline);
    }
  }

  lemma {:induction false} AmongParts(q: seq<Entry>, n: nat, k: nat, d: nat)
    requires n <= |q|
    ensures Among(q, k, d) <==> Among(q[..n], k, d) || Among(q[n..], k, d)
  {
    assert q == q[..n] + q[n..];
    if Among(q, k, d) {
      var e :| e in q && e.command == k && e.deadline == d;
      assert e in q[..n] || e in q[n..];
    }
    if Among(q[..n], k, d) {
      var e :| e in q[..n] && e.command == k && e.deadline == d;
      assert e in q;
    }
    if Among(q[n..], k, d) {
      var e :| e in q[n..] && e.command == k && e.deadline == d;
      assert e in q;
    }
  }

  /** What is due is taken, and only that. */
  lemma {:induction false} TakenAndLeft(q: seq<Entry>, now: nat, k: nat)
    requires Sorted(q)
    ensures var n := DueCount(q, now);
            forall d: nat :: (Among(q[..n], k, d) <==> Among(q, k, d) && d <= now)
                             && (Among(q[n..], k, d) <==> Among(q, k, d) && d > now)
  {
    var n := DueCount(q, now);
    DrainTakesTheDue(q, now);
    assert forall e :: e in q[..n] ==> e.deadline <= now;
    assert forall e :: e in q[n..] ==> e.deadline > now;
    forall d: nat
      ensures (Among(q[..n], k, d) <==> Among(q, k, d) && d <= now)
              && (Among(q[n..], k, d) <==> Among(q, k, d) && d > now)
    {
      AmongParts(q, n, k, d);
    }
  }

  lemma {:induction false} DrainTells(s: Sched, now: nat, k: nat, f: Fate)
    requires Tells(s, k, f) && Sorted(s.pending)
    ensures Tells(Drain(s, now), k, Later(f, k, TimeOut, now))
  {
    var n, s' := DueCount(s.pending, now), Drain(s, now);
    var rest := s.(pending := s.pending[n..]);
    TakenAndLeft(s.pending, now, k);
    FiresThese(rest, s.pending[..n], now, k);
    assert forall at: nat, d: nat :: FiredAs(rest, k, at, d) <==> FiredAs(s, k, at, d);
    assert forall d: nat :: Among(s.pending, k, d) <==> Pends(s, k, d);
    assert forall d: nat :: Among(s.pending[n..], k, d) <==> Pends(s', k, d);
  }

  // ---------------------------------------------------------------- runs

  lemma {:induction false} StepTells(s: Sched, a: Step, now: nat, k: nat, f: Fate)
    requires Inv(s) && Numbered(s) && Tells(s, k, f) && !(a.Receive? && k == s.handled + 1)
    ensures Tells(Apply(s, a, now), k, Later(f, k, a, now))
  {
    match a
    case Receive(c) => CommandTells(s, c, now, k, f);
    case TimeOut => DrainTells(s, now, k, f);
    case Prune(ended) => PruneTells(s, ended, now, k, f);
  }

  lemma {:induction false} StaysNumbered(s: Sched, a: Step, now: nat)
    requires Numbered(s)
    ensures Numbered(Apply(s, a, now)) && Apply(s, a, now).handled == s.handled + if a.Receive? then 1 else 0
  {
    match a
    case Receive(c) =>
      if c.PlayAt? {
        InsertMembers(s.pending, Entry(c.deadline, s.nextSeq + 1, s.handled + 1));
      }
    case TimeOut =>
      var n := DueCount(s.pending, now);
      var rest := s.(pending := s.pending[n..]);
      assert forall e :: e in s.pending[..n] || e in s.pending[n..] ==> e in s.pending;
      FireAllNumbered(rest, s.pending[..n], now);
    case Prune(ended) =>
      forall k | k in Without(s.live, ended)
        ensures 1 <= k <= s.handled
      {
        LiveKept(s.live, ended, k);
      }
  }

  lemma {:induction false} FireAllNumbered(s: Sched, es: seq<Entry>, now: nat)
    requires Numbered(s) && forall e :: e in es ==> 1 <= e.command <= s.handled
    ensures Numbered(FireAll(s, es, now)) && FireAll(s, es, now).handled == s.handled
    decreases |es|
  {
    if es != [] {
      assert es[0] in es && forall e :: e in es[1..] ==> e in es;
      FireAllNumbered(FireOne(s, es[0].command, es[0].deadline, now), es[1..], now);
    }
  }

  lemma {:induction false} RunSnoc(s: Sched, h: Steps, x: (Step, nat))
    ensures Run(s, h + [x]) == Apply(Run(s, h), x.0, x.1)
    decreases |h|
  {
    if h == [] {
      assert h + [x] == [x] && [x][1..] == [];
    } else {
      assert (h + [x])[1..] == h[1..] + [x];
      RunSnoc(Apply(s, h[0].0, h[0].1), h[1..], x);
    }
  }

  lemma {:induction false} RunNumbered(steps: Steps)
    ensures var s := Run(Start(), steps); Inv(s) && Numbered(s) && s.handled == Received(steps)
    decreases |steps|
  {
    RunKeeps(Start(), steps);
    if steps != [] {
      var n := |steps| - 1;
      RunNumbered(steps[..n]);
      RunSnoc(Start(), steps[..n], steps[n]);
      assert steps[..n] + [steps[n]] == steps;
      StaysNumbered(Run(Start(), steps[..n]), steps[n].0, steps[n].1);
    }
  }

  /** After every run, for every command: it was fired exactly if its fate is to
      have fired, at that instant and for the deadline it asked for; it is
      pending exactly if it still waits for that deadline; it sounds exactly if
      nothing has stopped it since. */
  lemma {:induction false} EveryCommandMeetsItsFate(steps: Steps, k: nat)
    requires k >= 1
    ensures Tells(Run(Start(), steps), k, FateOf(steps, k))
    decreases |steps|
  {
    if steps == [] {
      assert forall at: nat, d: nat :: !FiredAs(Start(), k, at, d);
      assert forall d: nat :: !Pends(Start(), k, d);
    } else {
      var n := |steps| - 1;
      var h, a, now := steps[..n], steps[n].0, steps[n].1;
      var s := Run(Start(), h);
      EveryCommandMeetsItsFate(h, k);
      RunNumbered(h);
      RunSnoc(Start(), h, steps[n]);
      assert h + [steps[n]] == steps;
      if a.Receive? && k == Received(h) + 1 {
        ArrivalTells(s, a.c, now);
      } else {
        StepTells(s, a, now, k, FateOf(h, k));
      }
    }
  }

  // -------------------------------------------- what the fates come to

  /** The k-th command received, and when. */
  function CommandAt(steps: Steps, k: nat): Option<(Command, nat)>
    decreases |steps|
  {
    if steps == [] then None
    else
      var n := |steps| - 1;
      if steps[n].0.Receive? && k == Received(steps[..n]) + 1 then Some((steps[n].0.c, steps[n].1))
      else CommandAt(steps[..n], k)
  }

  /** A command fires only if its sound decodes: a `PlayNow` when it is received,
      a `PlayAt` for its own deadline and not before it. */
  lemma {:induction false} FatesKeepDeadlines(steps: Steps, k: nat)
    ensures match FateOf(steps, k)
            case Fired(at, deadline, _) =>
              && CommandAt(steps, k).Some?
              && (match CommandAt(steps, k).value.0
                  case PlayNow(decodes) => decodes && at == deadline == CommandAt(steps, k).value.1
                  case PlayAt(d, decodes) => decodes && deadline == d <= at
                  case FlushAll => false)
            case Waiting(deadline) => CommandAt(steps, k).Some? && CommandAt(steps, k).value.0 == PlayAt(deadline, true)
            case _ => true
    decreases |steps|
  {
    if steps != [] {
      FatesKeepDeadlines(steps[..|steps| - 1], k);
    }
  }

  /** No flush among the steps. */
  predicate NoFlush(steps: Steps) {
    forall i :: 0 <= i < |steps| ==> steps[i].0 != Receive(FlushAll)
  }

  /** Every cue received since the last flush whose sound decodes has fired or
      still waits for its deadline: none is dropped. */
  lemma {:induction false} NoCueIsDropped(h: Steps, c: Command, now: nat, rest: Steps)
    requires NoFlush(rest) && (c.PlayNow? || c.PlayAt?) && c.decodes
    ensures var f := FateOf(h + [(Receive(c), now)] + rest, Received(h) + 1);
            f.Fired? || (c.PlayAt? && f == Waiting(c.deadline))
    decreases |rest|
  {
    var all := h + [(Receive(c), now)] + rest;
    if rest == [] {
      assert all == h + [(Receive(c), now)] && all[..|h|] == h;
    } else {
      var m := |rest| - 1;
      assert all[..|all| - 1] == h + [(Receive(c), now)] + rest[..m];
      NoCueIsDropped(h, c, now, rest[..m]);
      ReceivedGrows(h + [(Receive(c), now)], rest[..m]);
      assert (h + [(Receive(c), now)])[..|h|] == h;
    }
  }

  lemma {:induction false} ReceivedGrows(h: Steps, rest: Steps)
    ensures Received(h + rest) >= Received(h)
    decreases |rest|
  {
    if rest == [] {
      assert h + rest == h;
    } else {
      assert (h + rest)[..|h + rest| - 1] == h + rest[..|rest| - 1];
      ReceivedGrows(h, rest[..|rest| - 1]);
    }
  }
}
