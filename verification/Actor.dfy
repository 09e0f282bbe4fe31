/** The reconnecting RPC actor: its connection state machine, the resources
    each state carries, backoff, and the queues that drive it. */
module Actor {
  import opened Prelude

  type KernelId = nat
  type ContextId = nat
  type Command = nat

  const U32_MAX: nat := 0xFFFF_FFFF
  const CONNECT_TOTAL_BUDGET: real := 25.0

  /** Why a connection is closed; `conn` numbers the connection a child task
      raised it on. */
  datatype Cause =
    | RpcError(message: string, conn: nat)
    | PingFailed(message: string, conn: nat)
    | KernelIdChanged(expected: KernelId, got: KernelId, conn: nat)
    | Shutdown

  datatype ActorState =
    | Idle
    | Connecting(attempt: nat, startedAt: real)
    | Connected(since: real)
    | Closing(cause: Cause, closedAttempt: nat)
    | Cooldown(nextAttempt: nat, until: real)
    | Terminal

  datatype Outcome = Built(kernel: KernelId, context: Option<ContextId>) | Transient | Permanent

  /** What observers are told: a status with its time, or that a reconnect happened. */
  datatype Notice = Status(at: real, state: ActorState) | Reconnected

  datatype Fate = Rejected | Dispatched

  datatype Handled = Handled(command: Command, fate: Fate)

  /** The actor's fields and queues. `sent` and `handled` are histories. */
  datatype Actor = Actor(
    state: ActorState,
    bound: Option<KernelId>,
    connection: Option<KernelId>,
    ping: Option<KernelId>,
    handshake: bool,
    joined: Option<ContextId>,
    closeSlot: Option<Cause>,
    internal: seq<ContextId>,
    queue: seq<Command>,
    hungUp: bool,
    exited: bool,
    log: seq<Notice>,
    sent: seq<Command>,
    handled: seq<Handled>)

  function Initial(now: real): Actor {
    Actor(Idle, None, None, None, false, None, None, [], [], false, false, [Status(now, Idle)], [], [])
  }

  // -------------------------------------------------------------- backoff

  function I32(x: int): int {
    (x + 0x8000_0000) % 0x1_0000_0000 - 0x8000_0000
  }

  function Pow2(e: int): real
    decreases if e < 0 then -e else e
  {
    if e == 0 then 1.0 else if e > 0 then 2.0 * Pow2(e - 1) else Pow2(e + 1) / 2.0
  }

  function MinR(x: real, y: real): real {
    if x <= y then x else y
  }

  /** Seconds to wait before an attempt; the exponent is cast to 32 bits. */
  function Backoff(attempt: nat): real {
    MinR(1.0 * Pow2(I32(SatSub(attempt, 1))), 30.0)
  }

  function Next(attempt: nat): nat {
    if attempt < U32_MAX then attempt + 1 else U32_MAX
  }

  // ---------------------------------------------------------- transitions

  function Broadcast(a: Actor, now: real): Actor
    requires a.state.Connected? ==> a.bound.Some?
  {
    a.(log := a.log + [Status(now, a.state)])
  }

  function StartConnecting(a: Actor, attempt: nat, now: real): Actor {
    Broadcast(a.(state := Connecting(attempt, now), handshake := true), now)
  }

  function EnterConnected(a: Actor, k: KernelId, ctx: Option<ContextId>, now: real): Actor {
    var log := if a.bound.Some? then a.log + [Reconnected] else a.log;
    Broadcast(a.(handshake := false, bound := Some(k), joined := ctx, connection := Some(k),
                 state := Connected(now), ping := Some(k), log := log), now)
  }

  function CarriedAttempt(s: ActorState): nat {
    match s
    case Connecting(attempt, _) => attempt
    case Cooldown(next, _) => next
    case _ => 0
  }

  function StartClosing(a: Actor, cause: Cause, now: real): Actor {
    Broadcast(a.(state := Closing(cause, CarriedAttempt(a.state)), connection := None, ping := None,
        handshake := false), now)
  }

  function EnterCooldown(a: Actor, next: nat, now: real): Actor {
    Broadcast(a.(state := Cooldown(next, now + Backoff(next))), now)
  }

  function FinishClosing(a: Actor, now: real): Actor {
    if !a.state.Closing? then a.(state := Idle)
    else if a.state.cause.Shutdown? then Broadcast(a.(state := Terminal), now)
    else EnterCooldown(a, Max(Next(a.state.closedAttempt), 1), now)
  }

  function OnConnectOutcome(a: Actor, o: Outcome, now: real): Actor {
    if !a.state.Connecting? then a
    else
      var a1 := a.(handshake := false);
      match o
      case Built(k, ctx) => EnterConnected(a1, k, ctx, now)
      case Transient => EnterCooldown(a1, Next(a.state.attempt), now)
      case Permanent => Broadcast(a1.(state := Terminal), now)
  }

  function OnBudget(a: Actor, now: real): Actor
    requires a.state.Connecting?
  {
    EnterCooldown(a.(handshake := false), Next(a.state.attempt), now)
  }

  /** The next command off the queue, with what became of it. */
  function TakeCommand(a: Actor): Actor
    requires a.queue != []
  {
    var fate := if a.state.Connected? then Dispatched else Rejected;
    a.(queue := a.queue[1..], handled := a.handled + [Handled(a.queue[0], fate)])
  }

  // ---------------------------------------------------------------- steps

  /** What the rest of the program does: callers, child tasks, the last handle dropped. */
  datatype Outside = Send(command: Command) | HangUp | Signal(cause: Cause) | JoinDone(ctx: ContextId)

  /** The arms of the actor's loop. */
  datatype Arm =
    | Dial | Wake | Handshake(outcome: Outcome) | BudgetOut
    | TakeClose | TakeInternal | TakeOne | SeeHangUp | FinishClose

  datatype Step = Env(out: Outside) | Loop(arm: Arm, now: real)

  /** The command arm is polled: in `Connected` only after the other two, in order. */
  predicate Listening(a: Actor) {
    match a.state
    case Connecting(_, _) => true
    case Cooldown(_, _) => true
    case Terminal => true
    case Connected(_) => a.closeSlot.None? && a.internal == []
    case _ => false
  }

  predicate Ready(a: Actor, arm: Arm, now: real) {
    match arm
    case Dial => a.state.Idle?
    case Wake => a.state.Cooldown? && now >= a.state.until
    case Handshake(_) => a.state.Connecting?
    case BudgetOut => a.state.Connecting? && now >= a.state.startedAt + CONNECT_TOTAL_BUDGET
    case TakeClose => (a.state.Connecting? || a.state.Connected?) && a.closeSlot.Some?
    case TakeInternal => a.state.Connected? && a.closeSlot.None? && a.internal != []
    case TakeOne => Listening(a) && a.queue != []
    case SeeHangUp => Listening(a) && a.queue == [] && a.hungUp
    case FinishClose => a.state.Closing?
  }

  predicate Enabled(a: Actor, s: Step) {
    match s
    case Env(Send(_)) => !a.hungUp
    case Env(Signal(c)) => !c.Shutdown?
    case Env(_) => true
    case Loop(arm, now) => !a.exited && Ready(a, arm, now)
  }

  function OnOutside(a: Actor, o: Outside): Actor {
    match o
    case Send(c) => a.(queue := a.queue + [c], sent := a.sent + [c])
    case HangUp => a.(hungUp := true)
    case Signal(c) => if a.closeSlot.None? then a.(closeSlot := Some(c)) else a
    case JoinDone(ctx) => a.(internal := a.internal + [ctx])
  }

  function OnArm(a: Actor, arm: Arm, now: real): Actor
    requires Ready(a, arm, now) && (a.state.Connected? ==> a.bound.Some?)
  {
    match arm
    case Dial => StartConnecting(a, 1, now)
    case Wake => StartConnecting(a, a.state.nextAttempt, now)
    case Handshake(o) => OnConnectOutcome(a, o, now)
    case BudgetOut => OnBudget(a, now)
    case TakeClose => StartClosing(a.(closeSlot := None), a.closeSlot.value, now)
    case TakeInternal => Broadcast(a.(joined := Some(a.internal[0]), internal := a.internal[1..]), now)
    case TakeOne => TakeCommand(a)
    case SeeHangUp => if a.state.Terminal? then a.(exited := true, ping := None, handshake := false)
        else StartClosing(a, Shutdown, now)
    case FinishClose => FinishClosing(a, now)
  }

  // ------------------------------------------- a reading of the notices

  function LastState(log: seq<Notice>): ActorState
    decreases |log|
  {
    if log == [] then Idle
    else if log[|log| - 1].Status? then log[|log| - 1].state
    else LastState(log[..|log| - 1])
  }

  /** An entry to Connected, as opposed to a repeated status. */
  predicate IsEntry(before: seq<Notice>, n: Notice) {
    n.Status? && n.state.Connected? && !LastState(before).Connected?
  }

  function Entries(log: seq<Notice>): nat
    decreases |log|
  {
    if log == [] then 0
    else Entries(log[..|log| - 1]) + if IsEntry(log[..|log| - 1], log[|log| - 1]) then 1 else 0
  }

  /** An attempt that did not connect. */
  predicate IsFailure(before: seq<Notice>, n: Notice) {
    n.Status? && LastState(before).Connecting? && (n.state.Cooldown? || n.state.Closing?)
  }

  /** Failed attempts since the start, or since the last time Connected. */
  function Streak(log: seq<Notice>): nat
    decreases |log|
  {
    if log == [] then 0
    else
      var before, n := log[..|log| - 1], log[|log| - 1];
      if n.Status? && n.state.Connected? then 0
      else if IsFailure(before, n) then Streak(before) + 1
      else Streak(before)
  }

  function AttemptAfter(failures: nat): nat {
    Min(1 + failures, U32_MAX)
  }

  predicate EndsReconnected(log: seq<Notice>) {
    log != [] && log[|log| - 1].Reconnected?
  }

  /** What each notice must be, given the notices before it. */
  predicate NoticeOk(before: seq<Notice>, n: Notice) {
    var last := LastState(before);
    if n.Reconnected? then last.Connecting? && Entries(before) >= 1 && !EndsReconnected(before)
    else
      && !last.Terminal?
      && (EndsReconnected(before) <==> IsEntry(before, n) && Entries(before) >= 1)
      && match n.state
        case Idle => before == []
        case Connecting(attempt, t) =>
          && attempt == AttemptAfter(Streak(before)) && t == n.at
          && (last.Idle? || (last.Cooldown? && last.nextAttempt == attempt && n.at >= last.until))
        case Connected(_) => last.Connecting? || last.Connected?
        case Closing(_, _) => last.Connecting? || last.Connected? || last.Cooldown?
        case Cooldown(next, until) =>
          && next == AttemptAfter(Streak(before + [n])) && until == n.at + Backoff(next)
          && (last.Connecting? || (last.Closing? && !last.cause.Shutdown?))
        case Terminal => last.Connecting? || (last.Closing? && last.cause.Shutdown?)
  }

  predicate LogOk(log: seq<Notice>)
    decreases |log|
  {
    log == [] || (LogOk(log[..|log| - 1]) && NoticeOk(log[..|log| - 1], log[|log| - 1]))
  }

  /** One more status at the end of the log. */
  lemma {:induction false} Extend(log: seq<Notice>, n: Notice)
    ensures var log' := log + [n];
            && LastState(log') == (if n.Status? then n.state else LastState(log))
            && Entries(log') == Entries(log) + (if IsEntry(log, n) then 1 else 0)
            && Streak(log') == (if n.Status? && n.state.Connected? then 0
                else if IsFailure(log, n) then Streak(log) + 1 else Streak(log))
            && (LogOk(log') <==> LogOk(log) && NoticeOk(log, n))
            && (EndsReconnected(log') <==> n.Reconnected?)
  {
    assert (log + [n])[..|log|] == log;
  }

  // ------------------------------------------------------------ invariant

  /** The resources of each state. */
  ghost predicate Resources(a: Actor) {
    && (a.connection.Some? <==> a.state.Connected?)
    && a.ping == a.connection
    && (a.handshake <==> a.state.Connecting?)
    && (a.state.Connected? ==> a.bound == a.connection)
    && (a.bound.Some? <==> Entries(a.log) >= 1)
  }

  /** The attempt a state carries is one more than the failures so far. */
  ghost predicate Attempts(a: Actor) {
    match a.state
    case Idle => Streak(a.log) == 0
    case Connecting(attempt, _) => attempt == AttemptAfter(Streak(a.log))
    case Cooldown(next, _) => next == AttemptAfter(Streak(a.log))
    case Closing(cause, attempt) => cause.Shutdown? || Max(Next(attempt), 1) == AttemptAfter(Streak(a.log))
    case _ => true
  }

  function Commands(hs: seq<Handled>): seq<Command> {
    if hs == [] then [] else [hs[0].command] + Commands(hs[1..])
  }

  ghost predicate Inv(a: Actor) {
    && Resources(a) && Attempts(a)
    && LogOk(a.log) && LastState(a.log) == a.state && !EndsReconnected(a.log) && a.log != []
    && (a.closeSlot.Some? ==> !a.closeSlot.value.Shutdown?)
    && Commands(a.handled) + a.queue == a.sent
    && (a.exited ==> a.state.Terminal?)
  }

  lemma {:induction false} InitialOk(now: real)
    ensures Inv(Initial(now))
  {
    assert [Status(now, Idle)] == [] + [Status(now, Idle)];
    Extend([], Status(now, Idle));
  }

  lemma {:induction false} ConnectingKeeps(a: Actor, attempt: nat, now: real)
    requires Inv(a) && !a.exited && attempt == AttemptAfter(Streak(a.log))
    requires a.state.Idle? || (a.state.Cooldown? && a.state.nextAttempt == attempt && now >= a.state.until)
    ensures Inv(StartConnecting(a, attempt, now))
  {
    Extend(a.log, Status(now, Connecting(attempt, now)));
  }

  lemma {:induction false} ConnectedKeeps(a: Actor, k: KernelId, ctx: Option<ContextId>, now: real)
    requires Inv(a) && !a.exited && a.state.Connecting?
    ensures Inv(EnterConnected(a.(handshake := false), k, ctx, now))
  {
    var log := if a.bound.Some? then a.log + [Reconnected] else a.log;
    Extend(a.log, Reconnected);
    Extend(log, Status(now, Connected(now)));
  }

  lemma {:induction false} ClosingKeeps(a: Actor, cause: Cause, now: real)
    requires Inv(a) && !a.exited
    requires a.state.Connecting? || a.state.Connected? || (a.state.Cooldown? && cause.Shutdown?)
    ensures Inv(StartClosing(a, cause, now))
  {
    Extend(a.log, Status(now, Closing(cause, CarriedAttempt(a.state))));
    if a.state.Connected? {
      StreakWhenConnected(a.log);
    }
  }

  lemma {:induction false} StreakWhenConnected(log: seq<Notice>)
    requires LastState(log).Connected?
    ensures Streak(log) == 0
    decreases |log|
  {
    if log[|log| - 1].Reconnected? {
      StreakWhenConnected(log[..|log| - 1]);
    }
  }

  /** A failed attempt, by whichever arm it is noticed. */
  lemma {:induction false} CooldownKeeps(a: Actor, next: nat, now: real)
    requires Inv(a) && !a.exited
    requires (a.state.Connecting? && next == Next(a.state.attempt))
          || (a.state.Closing? && !a.state.cause.Shutdown? && next == Max(Next(a.state.closedAttempt), 1))
    ensures Inv(EnterCooldown(a.(handshake := false), next, now))
  {
    Extend(a.log, Status(now, Cooldown(next, now + Backoff(next))));
  }

  lemma {:induction false} TerminalKeeps(a: Actor, now: real)
    requires Inv(a) && !a.exited && (a.state.Connecting? || (a.state.Closing? && a.state.cause.Shutdown?))
    ensures Inv(Broadcast(a.(handshake := false, state := Terminal), now))
  {
    Extend(a.log, Status(now, Terminal));
  }

  lemma {:induction false} JoinKeeps(a: Actor, now: real)
    requires Inv(a) && a.state.Connected? && a.internal != []
    ensures Inv(Broadcast(a.(joined := Some(a.internal[0]), internal := a.internal[1..]), now))
  {
    Extend(a.log, Status(now, a.state));
    StreakWhenConnected(a.log);
  }

  lemma {:induction false} CommandsSnoc(hs: seq<Handled>, h: Handled)
    ensures Commands(hs + [h]) == Commands(hs) + [h.command]
  {
    if hs == [] {
      assert hs + [h] == [h] && [h][1..] == [];
    } else {
      assert (hs + [h])[1..] == hs[1..] + [h];
      CommandsSnoc(hs[1..], h);
    }
  }

  lemma {:induction false} TakeKeeps(a: Actor)
    requires Inv(a) && a.queue != []
    ensures Inv(TakeCommand(a))
  {
    var h := Handled(a.queue[0], if a.state.Connected? then Dispatched else Rejected);
    CommandsSnoc(a.handled, h);
    assert Commands(a.handled) + [a.queue[0]] + a.queue[1..] == Commands(a.handled) + a.queue;
  }

  lemma {:induction false} ArmKeeps(a: Actor, arm: Arm, now: real)
    requires Inv(a) && Enabled(a, Loop(arm, now))
    ensures Inv(OnArm(a, arm, now))
  {
    match arm
    case Dial => ConnectingKeeps(a, 1, now);
    case Wake => ConnectingKeeps(a, a.state.nextAttempt, now);
    case Handshake(o) =>
      match o {
        case Built(k, ctx) => ConnectedKeeps(a, k, ctx, now);
        case Transient => CooldownKeeps(a, Next(a.state.attempt), now);
        case Permanent => TerminalKeeps(a, now);
      }
    case BudgetOut => CooldownKeeps(a, Next(a.state.attempt), now);
    case TakeClose => ClosingKeeps(a.(closeSlot := None), a.closeSlot.value, now);
    case TakeInternal => JoinKeeps(a, now);
    case TakeOne => TakeKeeps(a);
    case SeeHangUp =>
      if !a.state.Terminal? {
        ClosingKeeps(a, Shutdown, now);
      }
    case FinishClose =>
      assert a.(handshake := false) == a;
      if a.state.cause.Shutdown? {
        TerminalKeeps(a, now);
      } else {
        CooldownKeeps(a, Max(Next(a.state.closedAttempt), 1), now);
      }
  }

  lemma {:induction false} OutsideKeeps(a: Actor, o: Outside)
    requires Inv(a) && Enabled(a, Env(o))
    ensures Inv(OnOutside(a, o))
  {
    if o.Send? {
      assert Commands(a.handled) + (a.queue + [o.command]) == (Commands(a.handled) + a.queue) + [o.command];
    }
  }

  // ------------------------------------------------------------ every run

  /** A run reaches an actor, or is no run, or trips one of the loop's expects. */
  datatype Ran = Reached(actor: Actor) | NotARun | Panicked

  /** A bound kernel and a connection in Connected, a handshake task in Connecting. */
  predicate ExpectsHold(a: Actor) {
    && (a.state.Connected? ==> a.bound.Some? && a.connection.Some?)
    && (a.state.Connecting? ==> a.handshake)
  }

  function Run(a: Actor, steps: seq<Step>): Ran
    decreases |steps|
  {
    if steps == [] then Reached(a)
    else if !Enabled(a, steps[0]) then NotARun
    else match steps[0]
      case Env(o) => Run(OnOutside(a, o), steps[1..])
      case Loop(arm, now) => if !ExpectsHold(a) then Panicked else Run(OnArm(a, arm, now), steps[1..])
  }

  lemma {:induction false} RunKeeps(a: Actor, steps: seq<Step>)
    requires Inv(a)
    ensures !Run(a, steps).Panicked? && (Run(a, steps).Reached? ==> Inv(Run(a, steps).actor))
    decreases |steps|
  {
    if steps != [] && Enabled(a, steps[0]) {
      match steps[0] {
        case Env(o) =>
          OutsideKeeps(a, o);
          RunKeeps(OnOutside(a, o), steps[1..]);
        case Loop(arm, now) =>
          ArmKeeps(a, arm, now);
          RunKeeps(OnArm(a, arm, now), steps[1..]);
      }
    }
  }

  /** In every run: no expect fails, each state has exactly its resources, the
      published status is the state, and every command is either still queued
      or was answered or dispatched once, in order. */
  lemma {:induction false} ResourcesInEveryRun(start: real, steps: seq<Step>)
    ensures !Run(Initial(start), steps).Panicked?
    ensures Run(Initial(start), steps).Reached? ==>
              var a := Run(Initial(start), steps).actor;
              && (a.connection.Some? <==> a.state.Connected?) && (a.ping.Some? <==> a.state.Connected?)
              && (a.handshake <==> a.state.Connecting?)
              && (a.bound.Some? <==> Entries(a.log) >= 1)
              && LastState(a.log) == a.state
              && Commands(a.handled) + a.queue == a.sent
  {
    InitialOk(start);
    RunKeeps(Initial(start), steps);
  }

  lemma {:induction false} LogAt(log: seq<Notice>, i: nat)
    requires LogOk(log) && i < |log|
    ensures NoticeOk(log[..i], log[i]) && LogOk(log[..i])
    decreases |log|
  {
    if i < |log| - 1 {
      LogAt(log[..|log| - 1], i);
      assert log[..|log| - 1][..i] == log[..i];
    }
  }

  /** Reconnected is announced before exactly the second and later entries to Connected. */
  lemma {:induction false} ReconnectedExactly(start: real, steps: seq<Step>, a: Actor)
    requires Run(Initial(start), steps) == Reached(a)
    ensures forall i :: 0 < i < |a.log| && IsEntry(a.log[..i], a.log[i]) ==>
              (a.log[i - 1].Reconnected? <==> Entries(a.log[..i]) >= 1)
    ensures forall i :: 0 <= i < |a.log| && a.log[i].Reconnected?
                        ==> i + 1 < |a.log| && IsEntry(a.log[..i + 1], a.log[i + 1])
  {
    InitialOk(start);
    RunKeeps(Initial(start), steps);
    forall i | 0 < i < |a.log| && IsEntry(a.log[..i], a.log[i])
      ensures a.log[i - 1].Reconnected? <==> Entries(a.log[..i]) >= 1
    {
      LogAt(a.log, i);
    }
    forall i | 0 <= i < |a.log| && a.log[i].Reconnected?
      ensures i + 1 < |a.log| && IsEntry(a.log[..i + 1], a.log[i + 1])
    {
      assert i + 1 < |a.log|;
      LogAt(a.log, i + 1);
      assert EndsReconnected(a.log[..i + 1]);
    }
  }

  /** In every run the attempt being made is one more than the failures since
      the start or the last Connected, a cooldown is timed for that attempt,
      and the next attempt does not start before the cooldown is over. */
  lemma {:induction false} AttemptLaw(start: real, steps: seq<Step>, a: Actor, i: nat)
    requires Run(Initial(start), steps) == Reached(a) && i < |a.log| && a.log[i].Status?
    ensures var n := a.log[i];
            && (n.state.Connecting? ==>
                  && n.state.attempt == AttemptAfter(Streak(a.log[..i]))
                  && (LastState(a.log[..i]).Idle? || (LastState(a.log[..i]).Cooldown?
                      && n.at >= LastState(a.log[..i]).until)))
            && (n.state.Cooldown? ==>
                  n.state.nextAttempt == AttemptAfter(Streak(a.log[..i + 1]))
                      && n.state.until == n.at + Backoff(n.state.nextAttempt))
  {
    InitialOk(start);
    RunKeeps(Initial(start), steps);
    LogAt(a.log, i);
    assert a.log[..i] + [a.log[i]] == a.log[..i + 1];
  }

  // -------------------------------------------------------- backoff facts

  lemma {:induction false} Pow2Grows(d: nat, e: nat)
    requires d <= e
    ensures 1.0 <= Pow2(d) <= Pow2(e)
    decreases e
  {
    if e > 0 {
      Pow2Grows(if d == e then d - 1 else d, e - 1);
    }
  }

  lemma {:induction false} Pow2Shrinks(e: int)
    requires e < 0
    ensures 0.0 < Pow2(e) <= 0.5
    decreases -e
  {
    if e < -1 {
      Pow2Shrinks(e + 1);
    }
  }

  /** The wait is min(30, 2^(n-1)) seconds exactly as long as the exponent survives its cast. */
  lemma {:induction false} BackoffFormula(n: nat)
    requires 1 <= n <= U32_MAX
    ensures Backoff(n) == MinR(Pow2(n - 1), 30.0) <==> n <= 0x8000_0000
  {
    Pow2Grows(0, n - 1);
    if n > 0x8000_0000 {
      Pow2Shrinks(I32(n - 1));
    }
  }

  lemma {:induction false} BackoffGrows(n: nat, m: nat)
    requires 1 <= n <= m <= 0x8000_0000
    ensures 1.0 <= Backoff(n) <= Backoff(m) <= 30.0
  {
    Pow2Grows(n - 1, m - 1);
  }

  lemma {:induction false} StreakGrows(log: seq<Notice>, i: nat)
    requires i <= |log| && forall k :: i <= k < |log| ==> !(log[k].Status? && log[k].state.Connected?)
    ensures Streak(log[..i]) <= Streak(log)
    decreases |log|
  {
    if i < |log| {
      StreakGrows(log[..|log| - 1], i);
      assert log[..|log| - 1][..i] == log[..i];
    } else {
      assert log[..i] == log;
    }
  }

  /** Along a failure streak cooldowns never shrink. */
  lemma {:induction false} CooldownsNeverShrink(start: real, steps: seq<Step>, a: Actor, i: nat, k: nat)
    requires Run(Initial(start), steps) == Reached(a) && i <= k < |a.log|
    requires a.log[i].Status? && a.log[i].state.Cooldown? && a.log[k].Status? && a.log[k].state.Cooldown?
    requires forall m :: i < m < k ==> !(a.log[m].Status? && a.log[m].state.Connected?)
    requires a.log[k].state.nextAttempt <= 0x8000_0000
    ensures a.log[i].state.nextAttempt <= a.log[k].state.nextAttempt
    ensures a.log[i].state.until - a.log[i].at <= a.log[k].state.until - a.log[k].at
  {
    AttemptLaw(start, steps, a, i);
    AttemptLaw(start, steps, a, k);
    StreakGrows(a.log[..k + 1], i + 1);
    assert a.log[..k + 1][..i + 1] == a.log[..i + 1];
    BackoffGrows(a.log[i].state.nextAttempt, a.log[k].state.nextAttempt);
  }

  // ------------------------------------------------------ the end of a run

  /** Once terminal, always terminal: nothing more is published or dispatched. */
  lemma {:induction false} TerminalAbsorbs(a: Actor, steps: seq<Step>)
    requires a.state.Terminal? && Run(a, steps).Reached?
    ensures var b := Run(a, steps).actor;
            && b.state.Terminal? && b.log == a.log && a.handled <= b.handled
            && forall i :: |a.handled| <= i < |b.handled| ==> b.handled[i].fate.Rejected?
    decreases |steps|
  {
    if steps != [] {
      match steps[0] {
        case Env(o) => TerminalAbsorbs(OnOutside(a, o), steps[1..]);
        case Loop(arm, now) => TerminalAbsorbs(OnArm(a, arm, now), steps[1..]);
      }
    }
  }

  /** In Connected a waiting close signal is the only thing the loop can act
      on; without one it never closes for a fault. */
  lemma {:induction false} CloseComesFirst(a: Actor, arm: Arm, now: real)
    requires Inv(a) && a.state.Connected? && Ready(a, arm, now)
    ensures a.closeSlot.Some? <==> arm == TakeClose
    ensures arm.TakeOne? ==> OnArm(a, arm, now).handled[|a.handled|] == Handled(a.queue[0], Dispatched)
                             && a.connection.Some?
  {
  }

  // ------------------------------------------- whose close signal it is

  /** What the close slot held at the last entry to Connected, and the signals
      it has accepted since. */
  datatype Watch = Watch(atEntry: Option<Cause>, since: seq<Cause>)

  predicate IsEntering(a: Actor, s: Step) {
    s.Loop? && s.arm.Handshake? && s.arm.outcome.Built? && a.state.Connecting?
  }

  function Observe(w: Watch, a: Actor, s: Step): Watch {
    if s.Env? && s.out.Signal? && a.closeSlot.None? then w.(since := w.since + [s.out.cause])
    else if IsEntering(a, s) then Watch(a.closeSlot, [])
    else if s.Loop? && s.arm.TakeClose? then Watch(None, [])
    else w
  }

  function Next1(a: Actor, s: Step): Actor
    requires Enabled(a, s) && (s.Loop? ==> ExpectsHold(a))
  {
    match s
    case Env(o) => OnOutside(a, o)
    case Loop(arm, now) => OnArm(a, arm, now)
  }

  function ObserveRun(w: Watch, a: Actor, steps: seq<Step>): Watch
    requires Run(a, steps).Reached?
    decreases |steps|
  {
    if steps == [] then w else ObserveRun(Observe(w, a, steps[0]), Next1(a, steps[0]), steps[1..])
  }

  lemma {:induction false} NextKeeps(a: Actor, s: Step)
    requires Inv(a) && Enabled(a, s)
    ensures Inv(Next1(a, s))
  {
    match s
    case Env(o) => OutsideKeeps(a, o);
    case Loop(arm, now) => ArmKeeps(a, arm, now);
  }

  function ConnOf(c: Cause): nat {
    if c.Shutdown? then 0 else c.conn
  }

  /** A child task signals for a connection that has been made. */
  predicate InTime(a: Actor, s: Step) {
    s.Env? && s.out.Signal? ==> ConnOf(s.out.cause) <= Entries(a.log)
  }

  predicate RaisedInTime(a: Actor, steps: seq<Step>)
    requires Run(a, steps).Reached?
    decreases |steps|
  {
    steps == [] || (InTime(a, steps[0]) && RaisedInTime(Next1(a, steps[0]), steps[1..]))
  }

  ghost predicate Watched(w: Watch, a: Actor) {
    && (a.closeSlot.Some? ==> ConnOf(a.closeSlot.value) <= Entries(a.log))
    && (a.state.Connected? ==>
          && a.closeSlot == (if w.atEntry.Some? then w.atEntry else if w.since == [] then None else Some(w.since[0]))
          && |w.since| <= 1 && (w.atEntry.Some? ==> w.since == [] && ConnOf(w.atEntry.value) < Entries(a.log)))
  }

  lemma {:induction false} EntriesGrow(a: Actor, s: Step)
    requires Inv(a) && Enabled(a, s)
    ensures Entries(Next1(a, s).log) == Entries(a.log) + if IsEntering(a, s) then 1 else 0
  {
    if s.Loop? {
      ArmEntries(a, s.arm, s.now);
    }
  }

  /** What an arm other than a successful handshake publishes. */
  lemma {:induction false} ArmLogs(a: Actor, arm: Arm, now: real)
    requires Inv(a) && Enabled(a, Loop(arm, now)) && !IsEntering(a, Loop(arm, now))
    ensures var b := OnArm(a, arm, now);
            && (b.log == a.log || b.log == a.log + [Status(now, b.state)])
            && (b.state.Connected? ==> a.state.Connected?)
  {
    match arm
    case Handshake(o) => FailureLogs(a, o, now);
    case TakeClose => ClosingLogs(a.(closeSlot := None), a.closeSlot.value, now);
    case SeeHangUp => ClosingLogs(a, Shutdown, now);
    case _ =>
  }

  lemma {:induction false} FailureLogs(a: Actor, o: Outcome, now: real)
    requires a.state.Connecting? && !o.Built?
    ensures var b := OnConnectOutcome(a, o, now); b.log == a.log + [Status(now, b.state)] && !b.state.Connected?
  {
  }

  lemma {:induction false} ClosingLogs(a: Actor, cause: Cause, now: real)
    ensures var b := StartClosing(a, cause, now); b.log == a.log + [Status(now, b.state)] && !b.state.Connected?
  {
  }

  lemma {:induction false} ArmEntries(a: Actor, arm: Arm, now: real)
    requires Inv(a) && Enabled(a, Loop(arm, now))
    ensures Entries(OnArm(a, arm, now).log) == Entries(a.log) + if IsEntering(a, Loop(arm, now)) then 1 else 0
  {
    var b := OnArm(a, arm, now);
    if IsEntering(a, Loop(arm, now)) {
      var log := if a.bound.Some? then a.log + [Reconnected] else a.log;
      Extend(a.log, Reconnected);
      Extend(log, Status(now, b.state));
    } else {
      ArmLogs(a, arm, now);
      Extend(a.log, Status(now, b.state));
    }
  }

  lemma {:induction false} WatchedStep(w: Watch, a: Actor, s: Step)
    requires Inv(a) && Enabled(a, s) && InTime(a, s) && Watched(w, a)
    ensures Watched(Observe(w, a, s), Next1(a, s))
  {
    EntriesGrow(a, s);
    if s.Loop? {
      SlotAfter(a, s.arm, s.now);
    }
  }

  lemma {:induction false} SlotAfter(a: Actor, arm: Arm, now: real)
    requires Inv(a) && Enabled(a, Loop(arm, now))
    ensures var b := OnArm(a, arm, now);
            && b.closeSlot == (if arm.TakeClose? then None else a.closeSlot)
            && (b.state.Connected? <==> IsEntering(a, Loop(arm, now))
                                        || (a.state.Connected? && (arm.TakeInternal? || arm.TakeOne?)))
  {
  }

  lemma {:induction false} WatchedRun(w: Watch, a: Actor, steps: seq<Step>)
    requires Inv(a) && Watched(w, a) && Run(a, steps).Reached? && RaisedInTime(a, steps)
    ensures Watched(ObserveRun(w, a, steps), Run(a, steps).actor)
    decreases |steps|
  {
    if steps != [] {
      NextKeeps(a, steps[0]);
      WatchedStep(w, a, steps[0]);
      WatchedRun(Observe(w, a, steps[0]), Next1(a, steps[0]), steps[1..]);
    }
  }

  lemma {:induction false} WatchedFromStart(start: real, steps: seq<Step>, a: Actor)
    requires Run(Initial(start), steps) == Reached(a) && RaisedInTime(Initial(start), steps)
    ensures Inv(a) && Watched(ObserveRun(Watch(None, []), Initial(start), steps), a)
  {
    InitialOk(start);
    WatchedRun(Watch(None, []), Initial(start), steps);
    RunKeeps(Initial(start), steps);
  }

  /** In every run, the close signal waiting in Connected is the current
      connection's own exactly when the slot was empty at the entry and no
      signal of an older connection was accepted since. */
  lemma {:induction false} WhoseSignal(start: real, steps: seq<Step>, a: Actor)
    requires Run(Initial(start), steps) == Reached(a) && RaisedInTime(Initial(start), steps)
    requires a.state.Connected? && a.closeSlot.Some?
    ensures var w, current := ObserveRun(Watch(None, []), Initial(start), steps), Entries(a.log);
            ConnOf(a.closeSlot.value) == current
            <==> w.atEntry.None? && forall c :: c in w.since ==> ConnOf(c) >= current
  {
    WatchedFromStart(start, steps, a);
    var w := ObserveRun(Watch(None, []), Initial(start), steps);
    if w.atEntry.None? {
      assert w.since == [a.closeSlot.value];
    }
  }

  /** A signal taken while Connecting is of a connection that is gone; it costs
      an attempt: the failures go up by one and the next cooldown is for the
      attempt after. */
  lemma {:induction false} StaleSignalCostsAnAttempt(start: real, steps: seq<Step>, a: Actor, now: real)
    requires Run(Initial(start), steps) == Reached(a) && RaisedInTime(Initial(start), steps)
    requires a.state.Connecting? && Enabled(a, Loop(TakeClose, now))
    ensures a.connection.None? && ConnOf(a.closeSlot.value) <= Entries(a.log)
    ensures var b, next := StartClosing(a.(closeSlot := None), a.closeSlot.value, now), AttemptAfter(Streak(a.log) + 1);
            && b == OnArm(a, TakeClose, now) && Streak(b.log) == Streak(a.log) + 1
            && FinishClosing(b, now).state == Cooldown(next, now + Backoff(next))
  {
    WatchedFromStart(start, steps, a);
    Extend(a.log, Status(now, Closing(a.closeSlot.value, a.state.attempt)));
  }

  lemma {:induction false} RunArm(a: Actor, arm: Arm, now: real, rest: seq<Step>)
    requires Inv(a) && Enabled(a, Loop(arm, now))
    ensures Run(a, [Loop(arm, now)] + rest) == Run(OnArm(a, arm, now), rest)
    ensures Inv(OnArm(a, arm, now))
  {
    ArmKeeps(a, arm, now);
    assert ([Loop(arm, now)] + rest)[1..] == rest;
  }

  lemma {:induction false} RunOutside(a: Actor, o: Outside, rest: seq<Step>)
    requires Inv(a) && Enabled(a, Env(o))
    ensures Run(a, [Env(o)] + rest) == Run(OnOutside(a, o), rest)
    ensures Inv(OnOutside(a, o))
  {
    OutsideKeeps(a, o);
    assert ([Env(o)] + rest)[1..] == rest;
  }

  /** A connection drops, a second fault of it is signalled late, and a new
      connection is made before the slot is read. */
  function LateSignal(first: Cause, late: Cause, k: KernelId, now: real): seq<Step> {
    [Env(Signal(first))] + ([Loop(TakeClose, now)] + ([Env(Signal(late))] + ([Loop(FinishClose, now)]
    + NewConnection(k, now + Backoff(1)))))
  }

  function NewConnection(k: KernelId, later: real): seq<Step> {
    [Loop(Wake, later)] + ([Loop(Handshake(Built(k, None)), later)] + ([Loop(TakeClose, later)] + []))
  }

  /** The close slot is not drained on leaving Connected, so the late signal of
      the old connection closes the new one. */
  lemma {:induction false} LateSignalClosesNext(a: Actor, first: Cause, late: Cause, k: KernelId, now: real)
    requires Inv(a) && a.state.Connected? && a.closeSlot.None? && !first.Shutdown? && !late.Shutdown?
    requires late.conn == Entries(a.log)
    ensures var r := Run(a, LateSignal(first, late, k, now));
            r.Reached? && r.actor.state == Closing(late, 0) && Entries(r.actor.log) == Entries(a.log) + 1
  {
    var a1, a2, a4 := FirstHalf(a, first, late, now, NewConnection(k, now + Backoff(1)));
    SecondHalf(a, a1, a2, a4, late, k, now);
  }

  lemma {:induction false} FirstHalf(a: Actor, first: Cause, late: Cause, now: real, rest: seq<Step>)
    returns (a1: Actor, a2: Actor, a4: Actor)
    requires Inv(a) && a.state.Connected? && a.closeSlot.None? && !first.Shutdown? && !late.Shutdown?
    ensures Run(a, [Env(Signal(first))]
                   + ([Loop(TakeClose, now)] + ([Env(Signal(late))] + ([Loop(FinishClose, now)] + rest))))
            == Run(a4, rest)
    ensures Inv(a2) && Inv(a4) && !a.exited && a1.log == a.log
    ensures a2.log == a1.log + [Status(now, a2.state)] && a2.state.Closing?
    ensures a4.log == a2.log + [Status(now, a4.state)] && a4.state == Cooldown(1, now + Backoff(1))
    ensures a4.closeSlot == Some(late) && !a4.exited
  {
    var r2 := [Env(Signal(late))] + ([Loop(FinishClose, now)] + rest);
    a1, a2 := FaultCloses(a, first, now, r2);
    a4 := LateFault(a2, late, now, rest);
  }

  lemma {:induction false} FaultCloses(a: Actor, first: Cause, now: real, rest: seq<Step>)
    returns (a1: Actor, a2: Actor)
    requires Inv(a) && a.state.Connected? && a.closeSlot.None? && !first.Shutdown?
    ensures Run(a, [Env(Signal(first))] + ([Loop(TakeClose, now)] + rest)) == Run(a2, rest)
    ensures Inv(a2) && !a2.exited && !a.exited && a1.log == a.log && a2.log == a1.log + [Status(now, a2.state)]
    ensures a2.state == Closing(first, 0) && a2.closeSlot.None?
  {
    RunOutside(a, Signal(first), [Loop(TakeClose, now)] + rest);
    a1 := OnOutside(a, Signal(first));
    RunArm(a1, TakeClose, now, rest);
    a2 := OnArm(a1, TakeClose, now);
  }

  lemma {:induction false} LateFault(a: Actor, late: Cause, now: real, rest: seq<Step>) returns (a4: Actor)
    requires Inv(a) && !a.exited && a.state.Closing? && a.state.closedAttempt == 0 && !a.state.cause.Shutdown?
    requires a.closeSlot.None? && !late.Shutdown?
    ensures Run(a, [Env(Signal(late))] + ([Loop(FinishClose, now)] + rest)) == Run(a4, rest)
    ensures Inv(a4) && !a4.exited && a4.log == a.log + [Status(now, a4.state)]
    ensures a4.state == Cooldown(1, now + Backoff(1)) && a4.closeSlot == Some(late)
  {
    RunOutside(a, Signal(late), [Loop(FinishClose, now)] + rest);
    var a3 := OnOutside(a, Signal(late));
    RunArm(a3, FinishClose, now, rest);
    a4 := OnArm(a3, FinishClose, now);
  }

  lemma {:induction false} SecondHalf(a: Actor, a1: Actor, a2: Actor, a4: Actor, late: Cause, k: KernelId, now: real)
    requires Inv(a) && Inv(a2) && Inv(a4) && !a.exited && a.state.Connected? && a1.log == a.log
    requires a2.log == a1.log + [Status(now, a2.state)] && a2.state.Closing?
    requires a4.log == a2.log + [Status(now, a4.state)] && a4.state == Cooldown(1, now + Backoff(1))
    requires a4.closeSlot == Some(late) && !a4.exited
    ensures var r := Run(a4, NewConnection(k, now + Backoff(1)));
            r.Reached? && r.actor.state == Closing(late, 0) && Entries(r.actor.log) == Entries(a.log) + 1
  {
    var later := now + Backoff(1);
    var r6 := [Loop(TakeClose, later)] + [];
    var r5 := [Loop(Handshake(Built(k, None)), later)] + r6;
    RunArm(a4, Wake, later, r5);
    var a5 := OnArm(a4, Wake, later);
    RunArm(a5, Handshake(Built(k, None)), later, r6);
    var a6 := OnArm(a5, Handshake(Built(k, None)), later);
    RunArm(a6, TakeClose, later, []);
    Extend(a1.log, Status(now, a2.state));
    Extend(a2.log, Status(now, a4.state));
    Extend(a4.log, Status(later, a5.state));
    Extend(a5.log, Reconnected);
    Extend(a5.log + [Reconnected], Status(later, a6.state));
    Extend(a6.log, Status(later, Closing(late, 0)));
    assert a4.bound.Some?;
    assert a6.log == a5.log + [Reconnected] + [Status(later, a6.state)];
  }

  // ------------------------------------------------------------ the class

  /** The actor object: what its loop does, one arm at a time. */
  class RpcActor {
    var state: ActorState
    var bound: Option<KernelId>
    var connection: Option<KernelId>
    var ping: Option<KernelId>
    var handshake: bool
    var joined: Option<ContextId>
    var closeSlot: Option<Cause>
    var internal: seq<ContextId>
    var queue: seq<Command>
    var hungUp: bool
    var exited: bool
    var log: seq<Notice>
    var handled: seq<Handled>
    ghost var sent: seq<Command>

    ghost function Get(): Actor
      reads this
    {
      Actor(state, bound, connection, ping, handshake, joined, closeSlot, internal, queue, hungUp, exited, log, sent,
          handled)
    }

    constructor (now: real)
      ensures Get() == Initial(now) && Inv(Get())
    {
      state, bound, connection, ping, handshake, joined := Idle, None, None, None, false, None;
      closeSlot, internal, queue, hungUp, exited := None, [], [], false, false;
      log, handled, sent := [Status(now, Idle)], [], [];
      new;
      InitialOk(now);
    }

    method BroadcastState(now: real)
      requires state.Connected? ==> bound.Some?
      modifies this`log
      ensures Get() == Broadcast(old(Get()), now)
    {
      log := log + [Status(now, state)];
    }

    method DialAttempt(attempt: nat, now: real)
      modifies this`state, this`handshake, this`log
      ensures Get() == StartConnecting(old(Get()), attempt, now)
    {
      state := Connecting(attempt, now);
      handshake := true;
      BroadcastState(now);
    }

    method Attach(k: KernelId, ctx: Option<ContextId>, now: real)
      modifies this`handshake, this`bound, this`joined, this`connection, this`state, this`ping
      ensures Get() == old(Get()).(handshake := false, bound := Some(k), joined := ctx, connection := Some(k),
                                   state := Connected(now), ping := Some(k))
    {
      handshake := false;
      bound, joined, connection := Some(k), ctx, Some(k);
      state := Connected(now);
      ping := Some(k);
    }

    method ConnectionUp(k: KernelId, ctx: Option<ContextId>, now: real)
      modifies this
      ensures Get() == EnterConnected(old(Get()), k, ctx, now)
    {
      var isReconnect := bound.Some?;
      Attach(k, ctx, now);
      if isReconnect {
        log := log + [Reconnected];
      }
      BroadcastState(now);
    }

    method BeginClosing(cause: Cause, now: real)
      modifies this`state, this`connection, this`ping, this`handshake, this`log
      ensures Get() == StartClosing(old(Get()), cause, now)
    {
      var attempt := CarriedAttempt(state);
      state := Closing(cause, attempt);
      connection, ping, handshake := None, None, false;
      BroadcastState(now);
    }

    method CoolDown(next: nat, now: real)
      modifies this`state, this`log
      ensures Get() == EnterCooldown(old(Get()), next, now)
    {
      state := Cooldown(next, now + Backoff(next));
      BroadcastState(now);
    }

    method EndClosing(now: real)
      modifies this`state, this`log
      ensures Get() == FinishClosing(old(Get()), now)
    {
      var was := state;
      state := Idle;
      if !was.Closing? {
        return;
      }
      if was.cause.Shutdown? {
        state := Terminal;
        BroadcastState(now);
      } else {
        CoolDown(Max(Next(was.closedAttempt), 1), now);
      }
    }

    method ConnectResult(o: Outcome, now: real)
      modifies this
      ensures Get() == OnConnectOutcome(old(Get()), o, now)
    {
      if !state.Connecting? {
        return;
      }
      var attempt := state.attempt;
      handshake := false;
      match o
      case Built(k, ctx) => ConnectionUp(k, ctx, now);
      case Transient => CoolDown(Next(attempt), now);
      case Permanent =>
        state := Terminal;
        BroadcastState(now);
    }

    /** Answer or dispatch the next command; dispatching needs the connection. */
    method NextCommand()
      requires queue != [] && (state.Connected? ==> connection.Some?)
      modifies this`queue, this`handled
      ensures Get() == TakeCommand(old(Get()))
    {
      var c := queue[0];
      queue := queue[1..];
      if state.Connected? {
        handled := handled + [Handled(c, Dispatched)];
      } else {
        handled := handled + [Handled(c, Rejected)];
      }
    }

    /** One turn of the loop keeps the invariant, so no expect in it fails. */
    method Turn(arm: Arm, now: real)
      requires Inv(Get()) && Enabled(Get(), Loop(arm, now))
      modifies this
      ensures Get() == OnArm(old(Get()), arm, now) && Inv(Get())
    {
      ArmKeeps(Get(), arm, now);
      TakeArm(arm, now);
    }

    method TakeArm(arm: Arm, now: real)
      requires ExpectsHold(Get()) && Ready(Get(), arm, now)
      modifies this
      ensures Get() == OnArm(old(Get()), arm, now)
    {
      match arm
      case Dial => DialAttempt(1, now);
      case Wake => DialAttempt(state.nextAttempt, now);
      case Handshake(o) =>
        assert handshake;
        ConnectResult(o, now);
      case BudgetOut =>
        var attempt := state.attempt;
        handshake := false;
        CoolDown(Next(attempt), now);
      case TakeClose =>
        var cause := closeSlot.value;
        closeSlot := None;
        BeginClosing(cause, now);
      case TakeInternal =>
        joined, internal := Some(internal[0]), internal[1..];
        BroadcastState(now);
      case TakeOne => NextCommand();
      case SeeHangUp =>
        if state.Terminal? {
          exited, ping, handshake := true, None, false;
        } else {
          BeginClosing(Shutdown, now);
        }
      case FinishClose => EndClosing(now);
    }
  }
}
