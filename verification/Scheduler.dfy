/** The audio deadline scheduler: re-anchoring a cue's lead to its age, and the
    queue that fires each sound at its deadline. Instants are nanoseconds. */
module Scheduler {
  import opened Prelude
  import opened Timebase

  const GRACE: nat := 100000000

  // ------------------------------------------------------------ deadlines

  function BackdatedLead(lead: nat, epochNs: nat, nowEpochNs: nat): Option<nat> {
    match StampAge(epochNs, nowEpochNs)
    case None => Some(lead)
    case Some(age) => if SatSub(age, lead) > REF_STALE_MAX then None else Some(SatSub(lead, age))
  }

  function EffectiveDeadline(now: nat, lead: nat, epochNs: nat, nowEpochNs: nat): Option<nat> {
    match BackdatedLead(lead, epochNs, nowEpochNs)
    case None => None
    case Some(l) => Some(now + l)
  }

  /** The instant a stamped cue was emitted, on the receiver's monotonic clock. */
  function Emission(now: nat, epochNs: nat, nowEpochNs: nat): int {
    now - (nowEpochNs - epochNs)
  }

  /** A stamped cue is accepted exactly when it is at most 5 s past its time,
      and an accepted one is due at max(now, emission + lead) exactly when its
      stamp is not ahead of the receiver's clock. */
  lemma {:induction false} DeadlineLaw(now: nat, lead: nat, epochNs: nat, nowEpochNs: nat)
    requires epochNs != 0
    ensures EffectiveDeadline(now, lead, epochNs, nowEpochNs).Some?
            <==> now - (Emission(now, epochNs, nowEpochNs) + lead) <= REF_STALE_MAX
    ensures var due := EffectiveDeadline(now, lead, epochNs, nowEpochNs);
            due.Some? ==> (due.value == Max(now, Emission(now, epochNs, nowEpochNs) + lead) <==> epochNs <= nowEpochNs)
  {
  }

  /** A cue received while its time is still to come is due at the same instant
      however long delivery took. */
  lemma {:induction false} DeadlineIgnoresDelay(now: nat, lead: nat, epochNs: nat, nowEpochNs: nat, delay: nat)
    requires epochNs != 0 && epochNs <= nowEpochNs
    requires now + delay <= Emission(now, epochNs, nowEpochNs) + lead
    ensures EffectiveDeadline(now + delay, lead, epochNs, nowEpochNs + delay)
            == EffectiveDeadline(now, lead, epochNs, nowEpochNs)
  {
    DeadlineLaw(now, lead, epochNs, nowEpochNs);
    DeadlineLaw(now + delay, lead, epochNs, nowEpochNs + delay);
  }

  datatype Decision = Fire | DropLate(lateBy: nat)

  function DecideDeadline(deadline: nat, stamped: bool, now: nat): (d: Decision)
    ensures d.Fire? <==> !stamped || now - deadline <= 100000000
    ensures d.DropLate? ==> deadline + d.lateBy == now
  {
    if !stamped then Fire
    else
      var lateBy := SatSub(now, deadline);
      if lateBy > GRACE then DropLate(lateBy) else Fire
  }

  // ------------------------------------------------------------ the queue

  /** A pending sound: its deadline, its place in arrival order, and the number
      of the command that asked for it. */
  datatype Entry = Entry(deadline: nat, seqNo: nat, command: nat)

  predicate Before(a: Entry, b: Entry) {
    a.deadline < b.deadline || (a.deadline == b.deadline && a.seqNo < b.seqNo)
  }

  /** The heap, as the list its pops would give. */
  predicate Sorted(q: seq<Entry>) {
    forall i, j :: 0 <= i < j < |q| ==> Before(q[i], q[j])
  }

  function Insert(q: seq<Entry>, e: Entry): seq<Entry> {
    if q == [] || Before(e, q[0]) then [e] + q else [q[0]] + Insert(q[1..], e)
  }

  /** What a drain at `now` takes: the longest prefix that is due. */
  function DueCount(q: seq<Entry>, now: nat): (n: nat)
    ensures n <= |q|
  {
    if q == [] || q[0].deadline > now then 0 else 1 + DueCount(q[1..], now)
  }

  lemma {:induction false} InsertKeeps(q: seq<Entry>, e: Entry)
    ensures multiset(Insert(q, e)) == multiset(q) + multiset{e}
  {
    if q != [] && !Before(e, q[0]) {
      InsertKeeps(q[1..], e);
      assert q == [q[0]] + q[1..];
    }
  }

  lemma {:induction false} InsertMembers(q: seq<Entry>, e: Entry)
    ensures forall x :: x in Insert(q, e) <==> x == e || x in q
  {
    InsertKeeps(q, e);
    assert forall x :: x in Insert(q, e) <==> x in multiset(Insert(q, e));
    assert forall x :: x in q <==> x in multiset(q);
  }

  /** Inserting an entry of a new sequence number keeps the pop order. */
  lemma {:induction false} InsertSorted(q: seq<Entry>, e: Entry)
    requires Sorted(q) && forall i :: 0 <= i < |q| ==> q[i].seqNo != e.seqNo
    ensures Sorted(Insert(q, e))
  {
    if q != [] && !Before(e, q[0]) {
      assert Sorted(q[1..]);
      InsertSorted(q[1..], e);
      InsertMembers(q[1..], e);
      var rest := Insert(q[1..], e);
      forall j | 0 <= j < |rest|
        ensures Before(q[0], rest[j])
      {
        assert rest[j] in rest;
        if rest[j] != e {
          var k :| 0 <= k < |q[1..]| && q[1..][k] == rest[j];
        }
      }
    }
  }

  /** A drain takes exactly what is due, in (deadline, arrival) order, and
      leaves nothing due behind. */
  lemma {:induction false} DrainTakesTheDue(q: seq<Entry>, now: nat)
    requires Sorted(q)
    ensures var n := DueCount(q, now);
            && (forall i :: 0 <= i < n ==> q[i].deadline <= now)
            && (forall i :: n <= i < |q| ==> q[i].deadline > now)
            && Sorted(q[..n]) && Sorted(q[n..])
  {
    if q != [] && q[0].deadline <= now {
      assert Sorted(q[1..]);
      DrainTakesTheDue(q[1..], now);
      var n := DueCount(q[1..], now);
      forall i | n + 1 <= i < |q|
        ensures q[i].deadline > now
      {
        assert q[i] == q[1..][i - 1];
      }
      forall i | 0 < i < n + 1
        ensures q[i].deadline <= now
      {
        assert q[i] == q[1..][i - 1];
      }
    }
  }

  // --------------------------------------------------------- the scheduler

  datatype Command = PlayNow(decodes: bool) | PlayAt(deadline: nat, decodes: bool) | FlushAll

  /** A sound started: which command, when, and for which instant; and the
      number of the last flush handled by then. */
  datatype Firing = Firing(command: nat, at: nat, deadline: nat, lastFlush: nat)

  /** `handled` numbers the commands, from 1; `fired` and `lastFlush` are histories. */
  datatype Sched = Sched(
    pending: seq<Entry>, live: seq<nat>, nextSeq: nat, handled: nat,
    fired: seq<Firing>, lastFlush: nat)

  function Start(): Sched {
    Sched([], [], 0, 0, [], 0)
  }

  function FireOne(s: Sched, command: nat, deadline: nat, now: nat): Sched {
    s.(live := s.live + [command], fired := s.fired + [Firing(command, now, deadline, s.lastFlush)])
  }

  function HandleCmd(s: Sched, c: Command, now: nat): Sched {
    var s1 := s.(handled := s.handled + 1);
    match c
    case PlayNow(decodes) => if decodes then FireOne(s1, s1.handled, now, now) else s1
    case PlayAt(deadline, decodes) =>
      if !decodes then s1
      else if deadline <= now then FireOne(s1, s1.handled, deadline, now)
      else s1.(nextSeq := s1.nextSeq + 1, pending := Insert(s1.pending, Entry(deadline, s1.nextSeq + 1, s1.handled)))
    case FlushAll => s1.(pending := [], live := [], lastFlush := s1.handled)
  }

  function FireAll(s: Sched, es: seq<Entry>, now: nat): Sched
    decreases |es|
  {
    if es == [] then s else FireAll(FireOne(s, es[0].command, es[0].deadline, now), es[1..], now)
  }

  function Drain(s: Sched, now: nat): Sched {
    var n := DueCount(s.pending, now);
    FireAll(s.(pending := s.pending[n..]), s.pending[..n], now)
  }

  /** A command received, the wait timing out, or sounds that ended being forgotten. */
  datatype Step = Receive(c: Command) | TimeOut | Prune(ended: set<nat>)

  function Without(live: seq<nat>, ended: set<nat>): seq<nat> {
    if live == [] then [] else (if live[0] in ended then [] else [live[0]]) + Without(live[1..], ended)
  }

  function Apply(s: Sched, a: Step, now: nat): Sched {
    match a
    case Receive(c) => HandleCmd(s, c, now)
    case TimeOut => Drain(s, now)
    case Prune(ended) => s.(live := Without(s.live, ended))
  }

  /** A run: steps, each at an instant. */
  function Run(s: Sched, steps: seq<(Step, nat)>): Sched
    decreases |steps|
  {
    if steps == [] then s else Run(Apply(s, steps[0].0, steps[0].1), steps[1..])
  }

  // ------------------------------------------------------------ invariant

  ghost predicate Fireable(s: Sched, command: nat) {
    && s.lastFlush < command <= s.handled
    && forall i :: 0 <= i < |s.fired| ==> s.fired[i].command != command
  }

  /** Never early, never twice, and nothing from before the last flush. */
  ghost predicate FiredOk(s: Sched) {
    && (forall i :: 0 <= i < |s.fired|
                    ==> s.fired[i].at >= s.fired[i].deadline && s.fired[i].lastFlush < s.fired[i].command <= s.handled)
    && forall i, j :: 0 <= i < j < |s.fired| ==> s.fired[i].command != s.fired[j].command
  }

  ghost predicate PendingOk(s: Sched) {
    && Sorted(s.pending) && s.lastFlush <= s.handled
    && (forall e :: e in s.pending ==> Fireable(s, e.command) && e.seqNo <= s.nextSeq)
    && (forall e, f :: e in s.pending && f in s.pending ==> (e.seqNo < f.seqNo <==> e.command < f.command))
    && (forall e, f :: e in s.pending && f in s.pending && e.command == f.command ==> e == f)
  }

  ghost predicate Inv(s: Sched) {
    FiredOk(s) && PendingOk(s)
  }

  lemma {:induction false} FireOneKeeps(s: Sched, command: nat, deadline: nat, now: nat)
    requires Inv(s) && Fireable(s, command) && deadline <= now
    requires forall e :: e in s.pending ==> e.command != command
    ensures Inv(FireOne(s, command, deadline, now))
  {
  }

  lemma {:induction false} NextCommandFireable(s: Sched)
    requires Inv(s)
    ensures var s1 := s.(handled := s.handled + 1);
            Inv(s1) && Fireable(s1, s1.handled) && forall e :: e in s1.pending ==> e.command < s1.handled
  {
    var s1 := s.(handled := s.handled + 1);
    forall e | e in s1.pending
      ensures Fireable(s1, e.command) && e.command < s1.handled && e.seqNo <= s1.nextSeq
    {
      assert Fireable(s, e.command);
    }
  }

  lemma {:induction false} FlushKeeps(s: Sched)
    requires Inv(s)
    ensures Inv(s.(pending := [], live := [], lastFlush := s.handled))
  {
  }

  lemma {:induction false} PlayNowKeeps(s: Sched, decodes: bool, now: nat)
    requires Inv(s)
    ensures Inv(HandleCmd(s, PlayNow(decodes), now))
  {
    NextCommandFireable(s);
    PlayDueKeeps(s, now, now);
  }

  lemma {:induction false} PlayDueKeeps(s: Sched, deadline: nat, now: nat)
    requires Inv(s) && deadline <= now
    ensures Inv(FireOne(s.(handled := s.handled + 1), s.handled + 1, deadline, now))
  {
    NextCommandFireable(s);
    FireOneKeeps(s.(handled := s.handled + 1), s.handled + 1, deadline, now);
  }

  lemma {:induction false} PlayAtKeeps(s: Sched, deadline: nat, decodes: bool, now: nat)
    requires Inv(s)
    ensures Inv(HandleCmd(s, PlayAt(deadline, decodes), now))
  {
    if decodes && deadline <= now {
      PlayDueKeeps(s, deadline, now);
    } else {
      NextCommandFireable(s);
      if decodes {
        QueueKeeps(s.(handled := s.handled + 1), deadline);
      }
    }
  }

  lemma {:induction false} CommandKeeps(s: Sched, c: Command, now: nat)
    requires Inv(s)
    ensures Inv(HandleCmd(s, c, now))
  {
    match c
    case PlayNow(decodes) => PlayNowKeeps(s, decodes, now);
    case PlayAt(deadline, decodes) => PlayAtKeeps(s, deadline, decodes, now);
    case FlushAll =>
      NextCommandFireable(s);
      FlushKeeps(s.(handled := s.handled + 1));
  }

  lemma {:induction false} QueueKeeps(s: Sched, deadline: nat)
    requires Inv(s) && Fireable(s, s.handled) && forall e :: e in s.pending ==> e.command < s.handled
    ensures Inv(s.(nextSeq := s.nextSeq + 1, pending := Insert(s.pending, Entry(deadline, s.nextSeq + 1, s.handled))))
  {
    var e := Entry(deadline, s.nextSeq + 1, s.handled);
    InsertMembers(s.pending, e);
    assert forall i :: 0 <= i < |s.pending| ==> s.pending[i] in s.pending;
    InsertSorted(s.pending, e);
  }

  /** Firing the front of the queue, one after the other. */
  lemma {:induction false} FireAllKeeps(s: Sched, es: seq<Entry>, now: nat)
    requires FiredOk(s) && PendingOk(s.(pending := es + s.pending))
    requires forall i :: 0 <= i < |es| ==> es[i].deadline <= now
    ensures Inv(FireAll(s, es, now))
    decreases |es|
  {
    if es == [] {
      assert es + s.pending == s.pending;
    } else {
      var whole := s.(pending := es + s.pending);
      var s1 := FireOne(s, es[0].command, es[0].deadline, now);
      assert es[0] in es + s.pending;
      FrontFires(whole, es[0], (es + s.pending)[1..], now);
      assert (es + s.pending)[1..] == es[1..] + s1.pending;
      FireAllKeeps(s1, es[1..], now);
    }
  }

  lemma {:induction false} FrontFires(s: Sched, e: Entry, rest: seq<Entry>, now: nat)
    requires Inv(s) && s.pending == [e] + rest && e.deadline <= now
    ensures Inv(FireOne(s.(pending := rest), e.command, e.deadline, now))
  {
    FrontLeaves(s, e, rest);
    FireOneKeeps(s.(pending := rest), e.command, e.deadline, now);
  }

  lemma {:induction false} FrontLeaves(s: Sched, e: Entry, rest: seq<Entry>)
    requires Inv(s) && s.pending == [e] + rest
    ensures Inv(s.(pending := rest)) && Fireable(s, e.command)
    ensures forall f :: f in rest ==> f.command != e.command
  {
    assert e in s.pending;
    forall f | f in rest
      ensures f in s.pending && f.command != e.command
    {
      var i :| 0 <= i < |rest| && rest[i] == f;
      assert s.pending[i + 1] == f && Before(s.pending[0], s.pending[i + 1]);
    }
    SortedTail(e, rest);
  }

  lemma {:induction false} SortedTail(e: Entry, rest: seq<Entry>)
    requires Sorted([e] + rest)
    ensures Sorted(rest)
  {
    assert forall i :: 0 <= i < |rest| ==> rest[i] == ([e] + rest)[i + 1];
  }

  lemma {:induction false} DrainKeeps(s: Sched, now: nat)
    requires Inv(s)
    ensures Inv(Drain(s, now))
  {
    var n := DueCount(s.pending, now);
    DrainTakesTheDue(s.pending, now);
    assert s.pending[..n] + s.pending[n..] == s.pending;
    assert s.(pending := s.pending[n..]).(pending := s.pending) == s;
    FireAllKeeps(s.(pending := s.pending[n..]), s.pending[..n], now);
  }

  lemma {:induction false} StepKeeps(s: Sched, a: Step, now: nat)
    requires Inv(s)
    ensures Inv(Apply(s, a, now))
  {
    match a
    case Receive(c) => CommandKeeps(s, c, now);
    case TimeOut => DrainKeeps(s, now);
    case Prune(_) =>
  }

  lemma {:induction false} RunKeeps(s: Sched, steps: seq<(Step, nat)>)
    requires Inv(s)
    ensures Inv(Run(s, steps))
    decreases |steps|
  {
    if steps != [] {
      StepKeeps(s, steps[0].0, steps[0].1);
      RunKeeps(Apply(s, steps[0].0, steps[0].1), steps[1..]);
    }
  }

  /** In every run no sound fires before its deadline, no command fires twice,
      and nothing fires that was asked for before the last flush. */
  lemma {:induction false} SchedulerSafety(steps: seq<(Step, nat)>)
    ensures var fired := Run(Start(), steps).fired;
            && (forall i :: 0 <= i < |fired| ==> fired[i].at >= fired[i].deadline
                                                 && fired[i].lastFlush < fired[i].command)
            && forall i, j :: 0 <= i < j < |fired| ==> fired[i].command != fired[j].command
  {
    RunKeeps(Start(), steps);
  }

  // ------------------------------------------------------ order of a drain

  lemma {:induction false} FireAllIs(s: Sched, es: seq<Entry>, now: nat)
    ensures var s' := FireAll(s, es, now);
            && s'.pending == s.pending && s'.handled == s.handled && s'.lastFlush == s.lastFlush
                && s'.nextSeq == s.nextSeq
            && |s'.fired| == |s.fired| + |es| && s.fired <= s'.fired
            && forall i :: 0 <= i < |es| ==> s'.fired[|s.fired| + i]
                                             == Firing(es[i].command, now, es[i].deadline, s.lastFlush)
    decreases |es|
  {
    if es != [] {
      FireAllIs(FireOne(s, es[0].command, es[0].deadline, now), es[1..], now);
    }
  }

  /** Earlier deadline first, and for one deadline the earlier command. */
  predicate FiresBefore(a: Firing, b: Firing) {
    a.deadline < b.deadline || (a.deadline == b.deadline && a.command < b.command)
  }

  /** Each drain fires exactly the due sounds, in (deadline, arrival) order. */
  lemma {:induction false} DrainInOrder(s: Sched, now: nat)
    requires Inv(s)
    ensures var s' := Drain(s, now);
            && s.fired <= s'.fired
            && (forall i, j :: |s.fired| <= i < j < |s'.fired| ==> FiresBefore(s'.fired[i], s'.fired[j]))
            && (forall e :: e in s'.pending ==> e.deadline > now)
            && |s'.fired| - |s.fired| + |s'.pending| == |s.pending|
  {
    var n := DueCount(s.pending, now);
    var s' := Drain(s, now);
    DrainTakesTheDue(s.pending, now);
    FireAllIs(s.(pending := s.pending[n..]), s.pending[..n], now);
    forall i, j | |s.fired| <= i < j < |s'.fired|
      ensures FiresBefore(s'.fired[i], s'.fired[j])
    {
      var a, b := i - |s.fired|, j - |s.fired|;
      assert s'.fired[|s.fired| + a] == Firing(s.pending[a].command, now, s.pending[a].deadline, s.lastFlush);
      assert s'.fired[|s.fired| + b] == Firing(s.pending[b].command, now, s.pending[b].deadline, s.lastFlush);
      QueueOrder(s, a, b);
    }
  }

  lemma {:induction false} QueueOrder(s: Sched, a: nat, b: nat)
    requires PendingOk(s) && a < b < |s.pending|
    ensures var e, f := s.pending[a], s.pending[b];
            e.deadline < f.deadline || (e.deadline == f.deadline && e.command < f.command)
  {
    var e, f := s.pending[a], s.pending[b];
    assert e in s.pending && f in s.pending && Before(e, f);
  }

  // -------------------------------------------------------------- flushing

  /** Everything still to fire was asked for after command `mark`. */
  ghost predicate After(s: Sched, mark: nat, was: seq<Firing>) {
    && was <= s.fired && mark <= s.handled
    && (forall e :: e in s.pending ==> e.command > mark)
    && forall i :: |was| <= i < |s.fired| ==> s.fired[i].command > mark
  }

  lemma {:induction false} AfterStays(s: Sched, mark: nat, was: seq<Firing>, a: Step, now: nat)
    requires After(s, mark, was)
    ensures After(Apply(s, a, now), mark, was)
  {
    match a
    case Receive(c) =>
      if c.PlayAt? {
        InsertMembers(s.pending, Entry(c.deadline, s.nextSeq + 1, s.handled + 1));
      }
    case TimeOut =>
      var n := DueCount(s.pending, now);
      var s' := Drain(s, now);
      FireAllIs(s.(pending := s.pending[n..]), s.pending[..n], now);
      forall i | |was| <= i < |s'.fired|
        ensures s'.fired[i].command > mark
      {
        if i >= |s.fired| {
          assert s'.fired[|s.fired| + (i - |s.fired|)].command == s.pending[i - |s.fired|].command;
        } else {
          assert s'.fired[i] == s.fired[i];
        }
      }
    case Prune(_) =>
  }

  lemma {:induction false} AfterRun(s: Sched, mark: nat, was: seq<Firing>, steps: seq<(Step, nat)>)
    requires After(s, mark, was)
    ensures After(Run(s, steps), mark, was)
    decreases |steps|
  {
    if steps != [] {
      AfterStays(s, mark, was, steps[0].0, steps[0].1);
      AfterRun(Apply(s, steps[0].0, steps[0].1), mark, was, steps[1..]);
    }
  }

  /** After a flush nothing sounds, and whatever fires later was asked for later. */
  lemma {:induction false} NothingSurvivesAFlush(s: Sched, t: nat, steps: seq<(Step, nat)>)
    ensures var flushed := HandleCmd(s, FlushAll, t);
            var r := Run(flushed, steps);
            && flushed.live == [] && flushed.pending == []
            && s.fired <= r.fired
            && forall i :: |s.fired| <= i < |r.fired| ==> r.fired[i].command > s.handled + 1
  {
    AfterRun(HandleCmd(s, FlushAll, t), s.handled + 1, s.fired, steps);
  }

  // ------------------------------------------------------------- the class

  class AudioScheduler {
    var pending: seq<Entry>
    var live: seq<nat>
    var nextSeq: nat
    var handled: nat
    ghost var fired: seq<Firing>
    ghost var lastFlush: nat

    ghost function Get(): Sched
      reads this
    {
      Sched(pending, live, nextSeq, handled, fired, lastFlush)
    }

    constructor ()
      ensures Get() == Start()
    {
      pending, live, nextSeq, handled, fired, lastFlush := [], [], 0, 0, [], 0;
    }

    method FireSound(command: nat, deadline: nat, now: nat)
      modifies this`live, this`fired
      ensures Get() == FireOne(old(Get()), command, deadline, now)
    {
      live := live + [command];
      fired := fired + [Firing(command, now, deadline, lastFlush)];
    }

    method HandleCommand(c: Command, now: nat)
      modifies this
      ensures Get() == HandleCmd(old(Get()), c, now)
    {
      handled := handled + 1;
      match c
      case PlayNow(decodes) =>
        if decodes {
          FireSound(handled, now, now);
        }
      case PlayAt(deadline, decodes) =>
        if decodes {
          if deadline <= now {
            FireSound(handled, deadline, now);
          } else {
            nextSeq := nextSeq + 1;
            pending := Insert(pending, Entry(deadline, nextSeq, handled));
          }
        }
      case FlushAll =>
        pending, live := [], [];
        lastFlush := handled;
    }

    /** Pop and collect while the top is due. */
    method DrainReady(now: nat) returns (ready: seq<Entry>)
      modifies this`pending
      ensures ready == old(pending)[..DueCount(old(pending), now)]
              && pending == old(pending)[DueCount(old(pending), now)..]
    {
      ghost var q := pending;
      ready := [];
      while pending != [] && pending[0].deadline <= now
        invariant |ready| <= |q| && ready == q[..|ready|] && pending == q[|ready|..]
        invariant DueCount(q, now) == |ready| + DueCount(pending, now)
        decreases |pending|
      {
        assert pending[1..] == q[|ready| + 1..] && pending[0] == q[|ready|];
        ready := ready + [pending[0]];
        pending := pending[1..];
      }
    }

    method TimedOut(now: nat)
      modifies this
      ensures Get() == Drain(old(Get()), now)
    {
      var ready := DrainReady(now);
      ghost var goal := FireAll(Get(), ready, now);
      for i := 0 to |ready|
        invariant FireAll(Get(), ready[i..], now) == goal
      {
        assert ready[i..][1..] == ready[i + 1..];
        FireSound(ready[i].command, ready[i].deadline, now);
      }
      assert ready[|ready|..] == [];
    }
  }
}
