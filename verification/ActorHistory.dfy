/** The actor told from the steps of a run alone: its state, what it has
    published, its connection, and what became of every command. */
module ActorHistory {
  import opened Prelude
  import opened Actor

  type Steps = seq<Step>

  // ------------------------------------------------------ from the steps

  predicate Sees(s: Step, arm: Arm) {
    s.Loop? && s.arm == arm
  }

  predicate HangUpSeen(steps: Steps) {
    exists i :: 0 <= i < |steps| && Sees(steps[i], SeeHangUp)
  }

  /** A handshake was refused for good, or a hang-up was seen and its closing finished. */
  predicate Ended(steps: Steps) {
    || (exists i :: 0 <= i < |steps| && Sees(steps[i], Handshake(Permanent)))
    || (exists i :: 0 <= i < |steps| && Sees(steps[i], FinishClose) && HangUpSeen(steps[..i]))
  }

  /** An arm that changes the state, after h. */
  predicate Moves(h: Steps, s: Step) {
    s.Loop? && !s.arm.TakeInternal? && !s.arm.TakeOne? && !(s.arm.SeeHangUp? && Ended(h))
  }

  /** The index of the last step that changed the state. */
  function LastMove(steps: Steps): (r: Option<nat>)
    ensures r.Some? ==> r.value < |steps| && steps[r.value].Loop?
    decreases |steps|
  {
    if steps == [] then None
    else
      var n := |steps| - 1;
      if Moves(steps[..n], steps[n]) then Some(n) else LastMove(steps[..n])
  }

  /** A handshake is under way. */
  predicate Dialing(steps: Steps) {
    var m := LastMove(steps);
    m.Some? && (steps[m.value].arm.Dial? || steps[m.value].arm.Wake?)
  }

  /** The handshake last made is still good. */
  predicate Up(steps: Steps) {
    var m := LastMove(steps);
    m.Some? && steps[m.value].arm.Handshake? && steps[m.value].arm.outcome.Built?
  }

  /** Attempts that failed since the last that did not: refused for now, out of
      time, or closed before they were done. */
  function Failures(steps: Steps): nat
    decreases |steps|
  {
    if steps == [] then 0
    else
      var h, s := steps[..|steps| - 1], steps[|steps| - 1];
      if s.Env? then Failures(h)
      else match s.arm
        case Handshake(Built(_, _)) => 0
        case Handshake(Transient) => Failures(h) + 1
        case BudgetOut => Failures(h) + 1
        case TakeClose => if Dialing(h) then Failures(h) + 1 else Failures(h)
        case _ => Failures(h)
  }

  /** The first signal since the slot was last read. */
  function Slot(steps: Steps): Option<Cause>
    decreases |steps|
  {
    if steps == [] then None
    else
      var h, s := steps[..|steps| - 1], steps[|steps| - 1];
      if Sees(s, TakeClose) then None
      else if s.Env? && s.out.Signal? && Slot(h).None? then Some(s.out.cause)
      else Slot(h)
  }

  function Cooling(failures: nat, now: real): ActorState {
    var next := AttemptAfter(failures);
    Cooldown(next, now + Backoff(next))
  }

  /** The state an arm leads to. */
  function Into(h: Steps, arm: Arm, now: real): ActorState {
    match arm
    case Dial => Connecting(AttemptAfter(Failures(h)), now)
    case Wake => Connecting(AttemptAfter(Failures(h)), now)
    case Handshake(Built(_, _)) => Connected(now)
    case Handshake(Transient) => Cooling(Failures(h) + 1, now)
    case Handshake(Permanent) => Terminal
    case BudgetOut => Cooling(Failures(h) + 1, now)
    case TakeClose => Closing(if Slot(h).Some? then Slot(h).value else Shutdown, Carried(h))
    case SeeHangUp => Closing(Shutdown, Carried(h))
    case _ => if HangUpSeen(h) then Terminal else Cooling(Failures(h), now)
  }

  /** The attempt a closing remembers: none if it closes a connection. */
  function Carried(h: Steps): nat {
    if Up(h) then 0 else AttemptAfter(Failures(h))
  }

  function StateTold(steps: Steps): ActorState {
    match LastMove(steps)
    case None => Idle
    case Some(i) => Into(steps[..i], steps[i].arm, steps[i].now)
  }

  /** The kernel of the last handshake that succeeded. */
  function Kernel(steps: Steps): Option<KernelId>
    decreases |steps|
  {
    if steps == [] then None
    else
      var h, s := steps[..|steps| - 1], steps[|steps| - 1];
      if s.Loop? && s.arm.Handshake? && s.arm.outcome.Built? then Some(s.arm.outcome.kernel) else Kernel(h)
  }

  /** The contexts joins were done for, those not yet taken, and the one joined. */
  function Joins(steps: Steps): seq<ContextId>
    decreases |steps|
  {
    if steps == [] then []
    else
      var h, s := steps[..|steps| - 1], steps[|steps| - 1];
      if s.Env? && s.out.JoinDone? then Joins(h) + [s.out.ctx] else Joins(h)
  }

  function JoinsTaken(steps: Steps): nat
    decreases |steps|
  {
    if steps == [] then 0
    else JoinsTaken(steps[..|steps| - 1]) + if Sees(steps[|steps| - 1], TakeInternal) then 1 else 0
  }

  function Joined(steps: Steps): Option<ContextId>
    decreases |steps|
  {
    if steps == [] then None
    else
      var h, s := steps[..|steps| - 1], steps[|steps| - 1];
      if s.Loop? && s.arm.Handshake? && s.arm.outcome.Built? then s.arm.outcome.context
      else if Sees(s, TakeInternal) && JoinsTaken(h) < |Joins(h)| then Some(Joins(h)[JoinsTaken(h)])
      else Joined(h)
  }

  /** The commands sent, and the fates of those taken: dispatched while the
      connection is up, rejected otherwise. */
  function Sent(steps: Steps): seq<Command>
    decreases |steps|
  {
    if steps == [] then []
    else
      var h, s := steps[..|steps| - 1], steps[|steps| - 1];
      if s.Env? && s.out.Send? then Sent(h) + [s.out.command] else Sent(h)
  }

  function Fates(steps: Steps): seq<Fate>
    decreases |steps|
  {
    if steps == [] then []
    else
      var h, s := steps[..|steps| - 1], steps[|steps| - 1];
      if Sees(s, TakeOne) then Fates(h) + [if Up(h) then Dispatched else Rejected] else Fates(h)
  }

  /** What a step publishes after h: the state it leads to, announced as a
      reconnect if a handshake had succeeded before; after a join the state again. */
  function News(h: Steps, s: Step): seq<Notice> {
    if s.Env? then []
    else if s.arm.TakeInternal? then [Status(s.now, StateTold(h))]
    else if !Moves(h, s) then []
    else
      (if s.arm.Handshake? && s.arm.outcome.Built? && Kernel(h).Some? then [Reconnected] else [])
      + [Status(s.now, Into(h, s.arm, s.now))]
  }

  function Published(start: real, steps: Steps): seq<Notice>
    decreases |steps|
  {
    if steps == [] then [Status(start, Idle)]
    else Published(start, steps[..|steps| - 1]) + News(steps[..|steps| - 1], steps[|steps| - 1])
  }

  // ------------------------------------------------------- the actor does

  function FatesOf(hs: seq<Handled>): seq<Fate> {
    if hs == [] then [] else [hs[0].fate] + FatesOf(hs[1..])
  }

  ghost predicate StateTells(h: Steps, a: Actor) {
    && a.state == StateTold(h) && a.closeSlot == Slot(h)
    && (a.state.Terminal? <==> Ended(h))
    && (HangUpSeen(h) && !Ended(h) ==> a.state.Closing? && a.state.cause.Shutdown?)
    && (a.state.Connecting? <==> Dialing(h)) && (a.state.Connected? <==> Up(h))
    && (a.state.Closing? && a.state.cause.Shutdown? ==> HangUpSeen(h))
    && AttemptTells(h, a.state)
  }

  /** The attempt a state carries, from the failures. */
  ghost predicate AttemptTells(h: Steps, s: ActorState) {
    match s
    case Idle => Failures(h) == 0
    case Connecting(attempt, _) => attempt == AttemptAfter(Failures(h))
    case Connected(_) => Failures(h) == 0
    case Cooldown(next, _) => next == AttemptAfter(Failures(h))
    case Closing(cause, attempt) => cause.Shutdown? || Max(Next(attempt), 1) == AttemptAfter(Failures(h))
    case Terminal => true
  }

  ghost predicate DataTells(start: real, h: Steps, a: Actor) {
    && a.bound == Kernel(h) && a.joined == Joined(h)
    && JoinsTaken(h) <= |Joins(h)| && a.internal == Joins(h)[JoinsTaken(h)..]
    && a.sent == Sent(h) && FatesOf(a.handled) == Fates(h)
    && a.log == Published(start, h)
  }

  ghost predicate Tells(start: real, h: Steps, a: Actor) {
    StateTells(h, a) && DataTells(start, h, a)
  }

  // ------------------------------------------------------ one more step

  lemma {:induction false} OneMore(h: Steps, s: Step)
    ensures LastMove(h + [s]) == if Moves(h, s) then Some(|h|) else LastMove(h)
    ensures StateTold(h + [s]) == if Moves(h, s) then Into(h, s.arm, s.now) else StateTold(h)
    ensures Dialing(h + [s]) <==> if Moves(h, s) then s.arm.Dial? || s.arm.Wake? else Dialing(h)
    ensures Up(h + [s]) <==> if Moves(h, s) then s.arm.Handshake? && s.arm.outcome.Built? else Up(h)
  {
    var all := h + [s];
    assert all[..|h|] == h;
    var m := LastMove(h);
    if m.Some? {
      assert all[..m.value] == h[..m.value];
    }
  }

  lemma {:induction false} SeenMore(h: Steps, s: Step)
    ensures HangUpSeen(h + [s]) <==> HangUpSeen(h) || Sees(s, SeeHangUp)
  {
    var all := h + [s];
    if HangUpSeen(h) {
      var i :| 0 <= i < |h| && Sees(h[i], SeeHangUp);
      assert all[i] == h[i];
    }
    if Sees(s, SeeHangUp) {
      assert all[|h|] == s;
    }
  }

  lemma {:induction false} EndedMore(h: Steps, s: Step)
    ensures Ended(h + [s]) <==> Ended(h) || Sees(s, Handshake(Permanent)) || (Sees(s, FinishClose) && HangUpSeen(h))
  {
    var all := h + [s];
    assert all[|h|] == s && all[..|h|] == h;
    if Ended(h) {
      EndedStays(h, s);
    }
    if Ended(all) {
      if i :| 0 <= i < |all| && Sees(all[i], Handshake(Permanent)) {
        assert i < |h| ==> h[i] == all[i];
      } else {
        var i :| 0 <= i < |all| && Sees(all[i], FinishClose) && HangUpSeen(all[..i]);
        if i < |h| {
          assert h[i] == all[i] && h[..i] == all[..i];
        }
      }
    }
  }

  lemma {:induction false} EndedStays(h: Steps, s: Step)
    requires Ended(h)
    ensures Ended(h + [s])
  {
    var all := h + [s];
    if i :| 0 <= i < |h| && Sees(h[i], Handshake(Permanent)) {
      assert all[i] == h[i];
    } else {
      var i :| 0 <= i < |h| && Sees(h[i], FinishClose) && HangUpSeen(h[..i]);
      assert all[i] == h[i] && all[..i] == h[..i];
    }
  }

  /** What a step adds to the counts and the slot. */
  lemma {:induction false} CountsMore(h: Steps, s: Step)
    ensures Failures(h + [s]) ==
            if s.Env? then Failures(h)
            else if s.arm.Handshake? && s.arm.outcome.Built? then 0
            else if s.arm == Handshake(Transient) || s.arm.BudgetOut? || (s.arm.TakeClose? && Dialing(h)) then
                Failures(h) + 1
            else Failures(h)
    ensures Slot(h + [s]) ==
            if Sees(s, TakeClose) then None
            else if s.Env? && s.out.Signal? && Slot(h).None? then Some(s.out.cause)
            else Slot(h)
  {
    assert (h + [s])[..|h|] == h;
  }

  lemma {:induction false} NextAttempt(failures: nat)
    ensures Next(AttemptAfter(failures)) == AttemptAfter(failures + 1)
            && Max(AttemptAfter(failures), 1) == AttemptAfter(failures)
  {
  }

  /** Steps of the rest of the program, and arms that leave the state. */
  lemma {:induction false} StillTells(h: Steps, a: Actor, s: Step)
    requires Inv(a) && Enabled(a, s) && StateTells(h, a) && !Moves(h, s)
    ensures StateTells(h + [s], Next1(a, s))
  {
    OneMore(h, s);
    SeenMore(h, s);
    EndedMore(h, s);
    CountsMore(h, s);
  }

  lemma {:induction false} DialTells(h: Steps, a: Actor, s: Step)
    requires Inv(a) && Enabled(a, s) && StateTells(h, a) && s.Loop? && (s.arm.Dial? || s.arm.Wake?)
    ensures StateTells(h + [s], Next1(a, s))
  {
    OneMore(h, s);
    SeenMore(h, s);
    EndedMore(h, s);
    CountsMore(h, s);
  }

  lemma {:induction false} HandshakeTells(h: Steps, a: Actor, s: Step)
    requires Inv(a) && Enabled(a, s) && StateTells(h, a) && s.Loop? && (s.arm.Handshake? || s.arm.BudgetOut?)
    ensures StateTells(h + [s], Next1(a, s))
  {
    OneMore(h, s);
    SeenMore(h, s);
    EndedMore(h, s);
    CountsMore(h, s);
    NextAttempt(Failures(h));
  }

  lemma {:induction false} CloseTells(h: Steps, a: Actor, s: Step)
    requires Inv(a) && Enabled(a, s) && StateTells(h, a) && s.Loop? && (s.arm.TakeClose? || s.arm.SeeHangUp?)
             && Moves(h, s)
    ensures StateTells(h + [s], Next1(a, s))
  {
    OneMore(h, s);
    SeenMore(h, s);
    EndedMore(h, s);
    CountsMore(h, s);
    NextAttempt(Failures(h));
  }

  lemma {:induction false} FinishTells(h: Steps, a: Actor, s: Step)
    requires Inv(a) && Enabled(a, s) && StateTells(h, a) && s.Loop? && s.arm.FinishClose?
    ensures StateTells(h + [s], Next1(a, s))
  {
    OneMore(h, s);
    SeenMore(h, s);
    EndedMore(h, s);
    CountsMore(h, s);
  }

  lemma {:induction false} StepTellsState(h: Steps, a: Actor, s: Step)
    requires Inv(a) && Enabled(a, s) && StateTells(h, a)
    ensures StateTells(h + [s], Next1(a, s))
  {
    if !Moves(h, s) {
      StillTells(h, a, s);
    } else if s.arm.Dial? || s.arm.Wake? {
      DialTells(h, a, s);
    } else if s.arm.Handshake? || s.arm.BudgetOut? {
      HandshakeTells(h, a, s);
    } else if s.arm.FinishClose? {
      FinishTells(h, a, s);
    } else {
      CloseTells(h, a, s);
    }
  }

  // ------------------------------------------------------------ the rest

  lemma {:induction false} FatesSnoc(hs: seq<Handled>, x: Handled)
    ensures FatesOf(hs + [x]) == FatesOf(hs) + [x.fate]
  {
    if hs == [] {
      assert hs + [x] == [x] && [x][1..] == [];
    } else {
      assert (hs + [x])[1..] == hs[1..] + [x];
      FatesSnoc(hs[1..], x);
    }
  }

  /** What a step does to the log, by the state it leads to. */
  lemma {:induction false} StepPublishes(h: Steps, a: Actor, s: Step)
    requires Inv(a) && Enabled(a, s) && StateTells(h, a) && a.bound == Kernel(h)
    ensures Next1(a, s).log == a.log + News(h, s)
  {
    assert a.log + [] == a.log;
    if s.Loop? && IsEntering(a, s) {
      EntryPublishes(h, a, s);
    } else if s.Loop? && Moves(h, s) {
      StepTellsState(h, a, s);
      OneMore(h, s);
      MovePublishes(a, s.arm, s.now);
      var status := [Status(s.now, Into(h, s.arm, s.now))];
      assert [] + status == status;
    }
  }

  lemma {:induction false} EntryPublishes(h: Steps, a: Actor, s: Step)
    requires IsEntering(a, s) && Enabled(a, s) && ExpectsHold(a) && a.bound == Kernel(h)
    ensures Next1(a, s).log == a.log + News(h, s)
  {
    var status := [Status(s.now, Connected(s.now))];
    assert a.log + ([Reconnected] + status) == a.log + [Reconnected] + status;
    assert [] + status == status;
  }

  /** An arm that changes the state publishes it. */
  lemma {:induction false} MovePublishes(a: Actor, arm: Arm, now: real)
    requires Inv(a) && Enabled(a, Loop(arm, now)) && !IsEntering(a, Loop(arm, now))
    requires !arm.TakeInternal? && !arm.TakeOne? && !(arm.SeeHangUp? && a.state.Terminal?)
    ensures OnArm(a, arm, now).log == a.log + [Status(now, OnArm(a, arm, now).state)]
  {
    match arm
    case Handshake(o) => FailureLogs(a, o, now);
    case TakeClose => ClosingLogs(a.(closeSlot := None), a.closeSlot.value, now);
    case SeeHangUp => ClosingLogs(a, Shutdown, now);
    case _ =>
  }

  /** Only taking a command adds to the handled ones, and only sending to the sent ones. */
  lemma {:induction false} QueuesAfter(a: Actor, s: Step)
    requires Enabled(a, s) && (s.Loop? ==> ExpectsHold(a))
    ensures Next1(a, s).sent == if s.Env? && s.out.Send? then a.sent + [s.out.command] else a.sent
    ensures Sees(s, TakeOne) ==> a.queue != []
    ensures Next1(a, s).handled == a.handled + if Sees(s, TakeOne) then [Taken(a)] else []
  {
    assert a.handled + [] == a.handled;
    if s.Loop? && !s.arm.TakeOne? {
      ArmQueues(a, s.arm, s.now);
    }
  }

  function Taken(a: Actor): Handled
    requires a.queue != []
  {
    Handled(a.queue[0], if a.state.Connected? then Dispatched else Rejected)
  }

  lemma {:induction false} ArmQueues(a: Actor, arm: Arm, now: real)
    requires Ready(a, arm, now) && ExpectsHold(a) && !arm.TakeOne?
    ensures OnArm(a, arm, now).sent == a.sent && OnArm(a, arm, now).handled == a.handled
  {
    if arm.Handshake? {
      HandshakeQueues(a, arm.outcome, now);
    } else if arm.FinishClose? {
      FinishQueues(a, now);
    }
  }

  lemma {:induction false} HandshakeQueues(a: Actor, o: Outcome, now: real)
    requires a.state.Connecting?
    ensures var b := OnConnectOutcome(a, o, now); b.sent == a.sent && b.handled == a.handled && b.internal == a.internal
  {
  }

  lemma {:induction false} FinishQueues(a: Actor, now: real)
    ensures var b := FinishClosing(a, now); b.sent == a.sent && b.handled == a.handled && b.internal == a.internal
  {
  }

  lemma {:induction false} QueuesTell(h: Steps, a: Actor, s: Step)
    requires Enabled(a, s) && (s.Loop? ==> ExpectsHold(a)) && (a.state.Connected? <==> Up(h))
    requires FatesOf(a.handled) == Fates(h) && a.sent == Sent(h)
    ensures FatesOf(Next1(a, s).handled) == Fates(h + [s]) && Next1(a, s).sent == Sent(h + [s])
  {
    QueuesAfter(a, s);
    QueuesMore(h, s);
    if Sees(s, TakeOne) {
      FatesSnoc(a.handled, Taken(a));
    } else {
      assert a.handled + [] == a.handled;
    }
  }

  lemma {:induction false} QueuesMore(h: Steps, s: Step)
    ensures Fates(h + [s]) == if Sees(s, TakeOne) then Fates(h) + [if Up(h) then Dispatched else Rejected] else Fates(h)
    ensures Sent(h + [s]) == if s.Env? && s.out.Send? then Sent(h) + [s.out.command] else Sent(h)
  {
    assert (h + [s])[..|h|] == h;
  }

  /** What a step does to the kernel, the joined context and the joins to take. */
  lemma {:induction false} DataAfter(a: Actor, s: Step)
    requires Enabled(a, s) && (s.Loop? ==> ExpectsHold(a))
    ensures var b := Next1(a, s);
            if IsEntering(a, s) then
              b.bound == Some(s.arm.outcome.kernel) && b.joined == s.arm.outcome.context && b.internal == a.internal
            else if Sees(s, TakeInternal) then
              a.internal != [] && b.bound == a.bound && b.joined == Some(a.internal[0]) && b.internal == a.internal[1..]
            else
              && b.bound == a.bound && b.joined == a.joined
              && b.internal == if s.Env? && s.out.JoinDone? then a.internal + [s.out.ctx] else a.internal
  {
    if s.Loop? && s.arm.FinishClose? {
      FinishQueues(a, s.now);
    }
  }

  lemma {:induction false} JoinsMore(h: Steps, s: Step)
    ensures Joins(h + [s]) == if s.Env? && s.out.JoinDone? then Joins(h) + [s.out.ctx] else Joins(h)
    ensures JoinsTaken(h + [s]) == JoinsTaken(h) + if Sees(s, TakeInternal) then 1 else 0
    ensures var built := s.Loop? && s.arm.Handshake? && s.arm.outcome.Built?;
            && Kernel(h + [s]) == (if built then Some(s.arm.outcome.kernel) else Kernel(h))
            && Joined(h + [s]) == (if built then s.arm.outcome.context
                                   else if Sees(s, TakeInternal) && JoinsTaken(h) < |Joins(h)| then
                                       Some(Joins(h)[JoinsTaken(h)])
                                   else Joined(h))
  {
    assert (h + [s])[..|h|] == h;
  }

  lemma {:induction false} JoinsTell(h: Steps, a: Actor, s: Step)
    requires Enabled(a, s) && (s.Loop? ==> ExpectsHold(a)) && a.bound == Kernel(h) && a.joined == Joined(h)
    requires JoinsTaken(h) <= |Joins(h)| && a.internal == Joins(h)[JoinsTaken(h)..]
    ensures var h', b := h + [s], Next1(a, s);
            && b.bound == Kernel(h') && b.joined == Joined(h')
            && JoinsTaken(h') <= |Joins(h')| && b.internal == Joins(h')[JoinsTaken(h')..]
  {
    var n := JoinsTaken(h);
    DataAfter(a, s);
    JoinsMore(h, s);
    if s.Env? && s.out.JoinDone? {
      assert (Joins(h) + [s.out.ctx])[n..] == Joins(h)[n..] + [s.out.ctx];
    } else if Sees(s, TakeInternal) {
      assert Joins(h)[n..][1..] == Joins(h)[n + 1..] && Joins(h)[n..][0] == Joins(h)[n];
    }
  }

  lemma {:induction false} StepTells(start: real, h: Steps, a: Actor, s: Step)
    requires Inv(a) && Enabled(a, s) && Tells(start, h, a)
    ensures Tells(start, h + [s], Next1(a, s))
  {
    StepTellsState(h, a, s);
    JoinsTell(h, a, s);
    QueuesTell(h, a, s);
    StepPublishes(h, a, s);
    assert (h + [s])[..|h|] == h;
  }

  // ---------------------------------------------------------------- runs

  lemma {:induction false} InitialTells(start: real)
    ensures Inv(Initial(start)) && Tells(start, [], Initial(start))
  {
    InitialOk(start);
  }

  /** What every step keeps every run keeps. */
  lemma {:induction false} KeptByRun(inv: (Steps, Actor) -> bool, h: Steps, a: Actor, steps: Steps)
    requires Inv(a) && inv(h, a) && Run(a, steps).Reached?
    requires forall h': Steps, a': Actor, s: Step ::
               Inv(a') && Enabled(a', s) && inv(h', a') ==> inv(h' + [s], Next1(a', s))
    ensures inv(h + steps, Run(a, steps).actor)
    decreases |steps|
  {
    if steps == [] {
      assert h + steps == h;
    } else {
      NextKeeps(a, steps[0]);
      KeptByRun(inv, h + [steps[0]], Next1(a, steps[0]), steps[1..]);
      assert h + [steps[0]] + steps[1..] == h + steps;
    }
  }

  /** In every run the actor is what the steps say: its state and its log, whole;
      its close slot, kernel and joined context; every command sent and the fate
      of every command taken. */
  lemma {:induction false} EveryRunIsTold(start: real, steps: Steps, a: Actor)
    requires Run(Initial(start), steps) == Reached(a)
    ensures a.state == StateTold(steps) && a.log == Published(start, steps) && a.closeSlot == Slot(steps)
    ensures a.bound == Kernel(steps) && a.joined == Joined(steps)
    ensures a.sent == Sent(steps) && FatesOf(a.handled) == Fates(steps)
    ensures (a.state.Terminal? <==> Ended(steps)) && (a.state.Connected? <==> Up(steps))
  {
    var inv := (h: Steps, b: Actor) => Tells(start, h, b);
    InitialTells(start);
    forall h: Steps, b: Actor, s: Step | Inv(b) && Enabled(b, s) && inv(h, b)
      ensures inv(h + [s], Next1(b, s))
    {
      StepTells(start, h, b, s);
    }
    KeptByRun(inv, [], Initial(start), steps);
    assert [] + steps == steps;
    assert Tells(start, steps, a);
  }

  /** The last handle was seen gone once the actor had ended. */
  predicate Quit(steps: Steps)
    decreases |steps|
  {
    steps != [] && ((Sees(steps[|steps| - 1], SeeHangUp) && Ended(steps[..|steps| - 1])) || Quit(steps[..|steps| - 1]))
  }

  lemma {:induction false} QuitAfter(a: Actor, s: Step)
    requires Enabled(a, s) && (s.Loop? ==> ExpectsHold(a))
    ensures Next1(a, s).exited <==> a.exited || (Sees(s, SeeHangUp) && a.state.Terminal?)
  {
  }

  lemma {:induction false} QuitTells(start: real, h: Steps, a: Actor, s: Step)
    requires Inv(a) && Enabled(a, s) && Tells(start, h, a) && (a.exited <==> Quit(h))
    ensures Tells(start, h + [s], Next1(a, s)) && (Next1(a, s).exited <==> Quit(h + [s]))
  {
    StepTells(start, h, a, s);
    QuitAfter(a, s);
    assert (h + [s])[..|h|] == h;
  }

  /** The loop returns exactly when it sees the last handle gone after the actor
      has ended; until then it goes on refusing commands. */
  lemma {:induction false} ReturnsExactly(start: real, steps: Steps, a: Actor)
    requires Run(Initial(start), steps) == Reached(a)
    ensures a.exited <==> Quit(steps)
  {
    var inv := (h: Steps, b: Actor) => Tells(start, h, b) && (b.exited <==> Quit(h));
    InitialTells(start);
    forall h: Steps, b: Actor, s: Step | Inv(b) && Enabled(b, s) && inv(h, b)
      ensures inv(h + [s], Next1(b, s))
    {
      QuitTells(start, h, b, s);
    }
    KeptByRun(inv, [], Initial(start), steps);
    assert [] + steps == steps;
  }

  lemma {:induction false} RunSplit(a: Actor, h: Steps, s: Step)
    requires Run(a, h + [s]).Reached?
    ensures Run(a, h).Reached? && Enabled(Run(a, h).actor, s) && (s.Loop? ==> ExpectsHold(Run(a, h).actor))
    ensures Run(a, h + [s]) == Reached(Next1(Run(a, h).actor, s))
    decreases |h|
  {
    if h == [] {
      assert h + [s] == [s] && [s][1..] == [];
    } else {
      assert (h + [s])[1..] == h[1..] + [s];
      RunSplit(Next1(a, h[0]), h[1..], s);
    }
  }

  /** In every run the actor is terminal exactly when a handshake was refused
      for good, or a hang-up was seen and its closing finished. */
  lemma {:induction false} TerminalExactly(start: real, steps: Steps, a: Actor)
    requires Run(Initial(start), steps) == Reached(a)
    ensures a.state.Terminal? <==>
            || (exists i :: 0 <= i < |steps| && Sees(steps[i], Handshake(Permanent)))
            || (exists i, j :: 0 <= i < j < |steps| && Sees(steps[i], SeeHangUp) && Sees(steps[j], FinishClose))
  {
    EveryRunIsTold(start, steps, a);
    if j :| 0 <= j < |steps| && Sees(steps[j], FinishClose) && HangUpSeen(steps[..j]) {
      var i :| 0 <= i < j && Sees(steps[..j][i], SeeHangUp);
      assert Sees(steps[i], SeeHangUp);
    }
    if i, j :| 0 <= i < j < |steps| && Sees(steps[i], SeeHangUp) && Sees(steps[j], FinishClose) {
      assert steps[..j][i] == steps[i];
    }
  }

  /** A handshake refused for now, or out of time, is followed by a cooldown for
      the next attempt, published at that instant, and counts as a failure. */
  lemma {:induction false} RefusedForNowCoolsDown(start: real, h: Steps, arm: Arm, now: real, a: Actor)
    requires Run(Initial(start), h + [Loop(arm, now)]) == Reached(a)
             && (arm == Handshake(Transient) || arm == BudgetOut)
    ensures a.state == Cooling(Failures(h) + 1, now)
    ensures a.log == Published(start, h) + [Status(now, Cooling(Failures(h) + 1, now))]
  {
    var s := Loop(arm, now);
    EveryRunIsTold(start, h + [s], a);
    OneMore(h, s);
    assert (h + [s])[..|h|] == h;
    assert [] + [Status(now, Cooling(Failures(h) + 1, now))] == [Status(now, Cooling(Failures(h) + 1, now))];
  }

  /** An attempt is given up for lack of time only 25 seconds after it began, and
      the next one begins only when its cooldown is over. */
  lemma {:induction false} TimesAreKept(start: real, h: Steps, s: Step, a: Actor)
    requires Run(Initial(start), h + [s]) == Reached(a) && s.Loop? && (s.arm.BudgetOut? || s.arm.Wake?)
    ensures LastMove(h).Some?
    ensures s.arm.BudgetOut? ==> Dialing(h) && s.now >= h[LastMove(h).value].now + 25.0
    ensures s.arm.Wake? ==> StateTold(h).Cooldown?
                            && s.now >= h[LastMove(h).value].now + Backoff(AttemptAfter(Failures(h)))
  {
    RunSplit(Initial(start), h, s);
    var b := Run(Initial(start), h).actor;
    EveryRunIsTold(start, h, b);
    AttemptTold(start, h, b);
  }

  lemma {:induction false} AttemptTold(start: real, steps: Steps, a: Actor)
    requires Run(Initial(start), steps) == Reached(a)
    ensures StateTells(steps, a)
  {
    var inv := (h: Steps, b: Actor) => StateTells(h, b);
    InitialTells(start);
    forall h: Steps, b: Actor, s: Step | Inv(b) && Enabled(b, s) && inv(h, b)
      ensures inv(h + [s], Next1(b, s))
    {
      StepTellsState(h, b, s);
    }
    KeptByRun(inv, [], Initial(start), steps);
    assert [] + steps == steps;
  }
}
