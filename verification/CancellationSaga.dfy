/**
 The cancellation-refund saga of one order: three external effects with bounded retries under a
 deadline, a saved step after each, and crashes and restarts anywhere.  One executor at a time.
 */
module CancellationSaga {
  import opened Wrappers
  import opened Numbers

  const SAGA_TIMEOUT_MS: nat := 120_000
  const TIMEOUT_MS: nat := 15_000
  const MAX_ATTEMPTS: nat := 3
  const BACKOFF_MS: nat := 100

  datatype SagaStep = STARTED | ORDER_CANCELLED | STOCK_RELEASED | REFUNDED | COMPLETED

  datatype Saga = Saga(orderId: nat, paymentId: Option<nat>, step: SagaStep, deadlineAt: Option<nat>)

  datatype Port = CancelOrder | ReleaseStock | RefundPayment

  /** Executions are numbered; an effect may be observed to succeed or only be called. */
  datatype Event = Called(port: Port, at: nat, execution: nat, deadline: nat) | Succeeded(port: Port)

  datatype Outcome = Succeeds(elapsed: nat) | Fails(elapsed: nat) | TimesOut

  /** A save may fail, or be applied without the executor hearing of it. */
  datatype SaveFate = Stored | StoredButLost | NotStored

  datatype Proc =
    | Down
    | Working(saga: Saga, deadline: nat, attempt: nat)
    | Saving(saga: Saga, deadline: nat)
    | Done(saga: Saga)

  datatype State = State(stored: Option<Saga>, now: nat, log: seq<Event>, execution: nat, proc: Proc)

  datatype Action =
    | Start(orderId: nat, paymentId: Option<nat>)
    | Attempt(outcome: Outcome)
    | Save(fate: SaveFate)
    | Crash
    | Tick(elapsed: nat)

  function Rank(step: SagaStep): nat {
    match step
    case STARTED => 0
    case ORDER_CANCELLED => 1
    case STOCK_RELEASED => 2
    case REFUNDED => 3
    case COMPLETED => 4
  }

  function Index(port: Port): nat {
    match port
    case CancelOrder => 0
    case ReleaseStock => 1
    case RefundPayment => 2
  }

  /** The effect the saga owes at its step, if any; without a payment there is nothing to refund. */
  function Owed(saga: Saga): Option<Port> {
    match saga.step
    case STARTED => Some(CancelOrder)
    case ORDER_CANCELLED => Some(ReleaseStock)
    case STOCK_RELEASED => if saga.paymentId.Some? then Some(RefundPayment) else None
    case REFUNDED => None
    case COMPLETED => None
  }

  function After(port: Port): SagaStep {
    match port
    case CancelOrder => ORDER_CANCELLED
    case ReleaseStock => STOCK_RELEASED
    case RefundPayment => REFUNDED
  }

  /** Where `execute` continues with a saga in memory. */
  function Resume(saga: Saga, deadline: nat): Proc {
    if Owed(saga).Some? then Working(saga, deadline, 1) else Saving(saga.(step := COMPLETED), deadline)
  }

  function Loaded(s: State, orderId: nat, paymentId: Option<nat>): Saga {
    if s.stored.Some? then s.stored.value else Saga(orderId, paymentId, STARTED, Some(s.now + SAGA_TIMEOUT_MS))
  }

  function Deadline(s: State, saga: Saga): nat {
    if saga.deadlineAt.Some? then saga.deadlineAt.value else s.now + SAGA_TIMEOUT_MS
  }

  function Min(a: nat, b: nat): nat { if a < b then a else b }

  /** The time the race allows one call. */
  function Limit(now: nat, deadline: nat): nat
    requires now < deadline
  {
    Min(TIMEOUT_MS, deadline - now)
  }

  function Elapsed(outcome: Outcome, limit: nat): nat {
    match outcome
    case Succeeds(elapsed) => Min(elapsed, limit)
    case Fails(elapsed) => Min(elapsed, limit)
    case TimesOut => limit
  }

  function Delay(attempt: nat, now: nat, deadline: nat): nat
    requires attempt > 0
  {
    Backoff(BACKOFF_MS, if now < deadline then deadline - now else 0, attempt - 1)
  }

  function DoAttempt(s: State, outcome: Outcome): State
    requires s.proc.Working? && Owed(s.proc.saga).Some? && s.proc.attempt > 0
  {
    var saga, deadline, attempt := s.proc.saga, s.proc.deadline, s.proc.attempt;
    if deadline <= s.now then s.(proc := Down)
    else
      var port := Owed(saga).value;
      var called := s.log + [Called(port, s.now, s.execution, deadline)];
      var later := s.now + Elapsed(outcome, Limit(s.now, deadline));
      if outcome.Succeeds? then
        s.(log := called + [Succeeded(port)], now := later, proc := Saving(saga.(step := After(port)), deadline))
      else if attempt == MAX_ATTEMPTS then s.(log := called, now := later, proc := Down)
      else s.(log := called, now := later + Delay(attempt, later, deadline), proc := Working(saga, deadline, attempt + 1))
  }

  function DoSave(s: State, fate: SaveFate): State
    requires s.proc.Saving?
  {
    var saga := s.proc.saga;
    match fate
    case Stored => s.(stored := Some(saga), proc := if saga.step.COMPLETED? then Done(saga) else Resume(saga, s.proc.deadline))
    case StoredButLost => s.(stored := Some(saga), proc := Down)
    case NotStored => s.(proc := Down)
  }

  function DoStart(s: State, orderId: nat, paymentId: Option<nat>): State {
    var saga := Loaded(s, orderId, paymentId);
    var deadline := Deadline(s, saga);
    s.(execution := s.execution + 1, proc := Resume(saga.(deadlineAt := Some(deadline)), deadline))
  }

  function Apply(s: State, a: Action): State {
    match a
    case Start(orderId, paymentId) => if s.proc.Down? || s.proc.Done? then DoStart(s, orderId, paymentId) else s
    case Attempt(outcome) =>
      if s.proc.Working? && Owed(s.proc.saga).Some? && s.proc.attempt > 0 then DoAttempt(s, outcome) else s
    case Save(fate) => if s.proc.Saving? then DoSave(s, fate) else s
    case Crash => s.(proc := Down)
    case Tick(elapsed) => s.(now := s.now + elapsed)
  }

  function Runs(s: State, actions: seq<Action>): State
    decreases |actions|
  {
    if actions == [] then s else Runs(Apply(s, actions[0]), actions[1..])
  }

  const EMPTY := State(None, 0, [], 0, Down)

  // ---------- the invariant ----------

  predicate Achieved(log: seq<Event>, port: Port) { Succeeded(port) in log }

  /** What a step vouches for. */
  predicate Vouched(log: seq<Event>, saga: Saga) {
    && (Rank(saga.step) >= 1 ==> Achieved(log, CancelOrder))
    && (Rank(saga.step) >= 2 ==> Achieved(log, ReleaseStock))
    && (Rank(saga.step) >= 3 && saga.paymentId.Some? ==> Achieved(log, RefundPayment))
  }

  /** An effect is only called after its predecessor was seen to succeed, and before its deadline. */
  predicate EventOk(log: seq<Event>, k: nat)
    requires k < |log|
  {
    log[k].Called? ==>
      && log[k].at < log[k].deadline
      && (log[k].port.ReleaseStock? ==> Achieved(log[..k], CancelOrder))
      && (log[k].port.RefundPayment? ==> Achieved(log[..k], ReleaseStock))
  }

  function Calls(log: seq<Event>, execution: nat, port: Port): nat {
    if log == [] then 0
    else
      var last := log[|log| - 1];
      Calls(log[..|log| - 1], execution, port) + (if last.Called? && last.execution == execution && last.port == port then 1 else 0)
  }

  function Memory(proc: Proc): Option<Saga> {
    match proc
    case Down => None
    case Working(saga, _, _) => Some(saga)
    case Saving(saga, _) => Some(saga)
    case Done(saga) => Some(saga)
  }

  predicate SameSaga(a: Saga, b: Saga) { a.orderId == b.orderId && a.paymentId == b.paymentId }

  /** The executor's copy is the stored saga or ahead of it, under the same deadline. */
  predicate AheadOf(stored: Option<Saga>, saga: Saga) {
    && saga.deadlineAt.Some?
    && (stored.Some? ==>
          && Rank(stored.value.step) <= Rank(saga.step) && SameSaga(stored.value, saga)
          && (stored.value.deadlineAt.Some? ==> stored.value.deadlineAt == saga.deadlineAt))
  }

  predicate ProcOk(s: State) {
    match s.proc
    case Down => true
    case Working(saga, deadline, attempt) =>
      && Vouched(s.log, saga) && AheadOf(s.stored, saga) && saga.deadlineAt == Some(deadline)
      && Owed(saga).Some? && 1 <= attempt <= MAX_ATTEMPTS
    case Saving(saga, deadline) => Vouched(s.log, saga) && AheadOf(s.stored, saga) && saga.deadlineAt == Some(deadline)
    case Done(saga) => saga.step.COMPLETED? && s.stored == Some(saga)
  }

  predicate Owing(s: State, port: Port) { s.proc.Working? && Owed(s.proc.saga) == Some(port) }

  predicate Beyond(s: State, port: Port) {
    Memory(s.proc).Some? && Index(port) >= Rank(Memory(s.proc).value.step) && !Owing(s, port)
  }

  /** Calls already made by the running execution: its attempts at the owed effect, none beyond. */
  predicate CountOk(s: State, execution: nat, port: Port) {
    var calls := Calls(s.log, execution, port);
    && calls <= MAX_ATTEMPTS
    && (execution > s.execution ==> calls == 0)
    && (execution == s.execution && Owing(s, port) ==> calls < s.proc.attempt)
    && (execution == s.execution && Beyond(s, port) ==> calls == 0)
  }

  ghost predicate Inv(s: State) {
    && (s.stored.Some? ==> Vouched(s.log, s.stored.value))
    && ProcOk(s)
    && (forall k :: 0 <= k < |s.log| ==> EventOk(s.log, k))
    && (forall e, port :: CountOk(s, e, port))
  }

  lemma CallsAppend(log: seq<Event>, e: Event, execution: nat, port: Port)
    ensures Calls(log + [e], execution, port)
         == Calls(log, execution, port) + (if e.Called? && e.execution == execution && e.port == port then 1 else 0)
  {
    assert (log + [e])[..|log|] == log;
  }

  /** The log only grows, and what was achieved stays achieved. */
  lemma StepGrowsLog(s: State, a: Action)
    ensures s.log <= Apply(s, a).log && s.execution <= Apply(s, a).execution
    ensures forall port :: Achieved(s.log, port) ==> Achieved(Apply(s, a).log, port)
  {
    var s' := Apply(s, a);
    forall port | Achieved(s.log, port) ensures Achieved(s'.log, port) {
      var k :| 0 <= k < |s.log| && s.log[k] == Succeeded(port);
      assert s'.log[k] == s.log[k];
    }
  }

  lemma StepKeepsProcOk(s: State, a: Action)
    requires Inv(s)
    ensures ProcOk(Apply(s, a))
    ensures var s' := Apply(s, a); s'.stored.Some? ==> Vouched(s'.log, s'.stored.value)
  {
    StepGrowsLog(s, a);
  }

  lemma EventsStayOk(s: State, s': State)
    requires forall k :: 0 <= k < |s.log| ==> EventOk(s.log, k)
    requires s.log <= s'.log
    ensures forall k :: 0 <= k < |s.log| ==> EventOk(s'.log, k)
  {
    forall k | 0 <= k < |s.log| ensures EventOk(s'.log, k) {
      assert EventOk(s.log, k) && s'.log[..k] == s.log[..k];
    }
  }

  lemma StepKeepsEvents(s: State, a: Action)
    requires Inv(s)
    ensures var s' := Apply(s, a); forall k :: 0 <= k < |s'.log| ==> EventOk(s'.log, k)
  {
    StepGrowsLog(s, a);
    var s' := Apply(s, a);
    EventsStayOk(s, s');
    if a.Attempt? && s'.log != s.log {
      var n := |s.log|;
      assert s'.log[..n] == s.log;
      assert EventOk(s'.log, n);
    }
  }

  lemma AttemptLogs(s: State, outcome: Outcome)
    requires s.proc.Working? && Owed(s.proc.saga).Some? && s.proc.attempt > 0
    ensures var called := s.log + [Called(Owed(s.proc.saga).value, s.now, s.execution, s.proc.deadline)];
            DoAttempt(s, outcome).log ==
              if s.proc.deadline <= s.now then s.log
              else if outcome.Succeeds? then called + [Succeeded(Owed(s.proc.saga).value)] else called
  {
  }

  lemma CallsOfOneMore(log: seq<Event>, call: Event, success: bool, e: nat, port: Port)
    requires call.Called?
    ensures var log' := if success then log + [call] + [Succeeded(call.port)] else log + [call];
            Calls(log', e, port) == Calls(log, e, port) + (if e == call.execution && port == call.port then 1 else 0)
  {
    CallsAppend(log, call, e, port);
    CallsAppend(log + [call], Succeeded(call.port), e, port);
  }

  /** The log after an attempt has one call more, of the owed effect by the running execution. */
  lemma AttemptCounts(s: State, outcome: Outcome, e: nat, port: Port)
    requires s.proc.Working? && Owed(s.proc.saga).Some? && s.proc.attempt > 0
    ensures Calls(DoAttempt(s, outcome).log, e, port)
         == Calls(s.log, e, port) + (if s.now < s.proc.deadline && e == s.execution && Owed(s.proc.saga) == Some(port) then 1 else 0)
  {
    AttemptLogs(s, outcome);
    CallsOfOneMore(s.log, Called(Owed(s.proc.saga).value, s.now, s.execution, s.proc.deadline), outcome.Succeeds?, e, port);
  }

  /** Where the executor is after an attempt. */
  lemma AttemptMoves(s: State, outcome: Outcome)
    requires s.proc.Working? && Owed(s.proc.saga).Some? && s.proc.attempt > 0
    ensures var s' := DoAttempt(s, outcome);
            && s'.execution == s.execution && s'.stored == s.stored
            && (s'.proc.Down?
                || (s.now < s.proc.deadline && s.proc.attempt != MAX_ATTEMPTS && s'.proc == s.proc.(attempt := s.proc.attempt + 1))
                || (s.now < s.proc.deadline && s'.proc == Saving(s.proc.saga.(step := After(Owed(s.proc.saga).value)), s.proc.deadline)))
  {
  }

  /**
   An attempt takes its call's time, at most 15 seconds, and after a failure that is not the last a
   back-off of 100 and then 200 milliseconds; neither runs past the deadline.
   */
  lemma AttemptTakesItsTime(s: State, outcome: Outcome)
    requires s.proc.Working? && Owed(s.proc.saga).Some? && 1 <= s.proc.attempt <= 3 && s.now < s.proc.deadline
    ensures var end, deadline, attempt := DoAttempt(s, outcome).now, s.proc.deadline, s.proc.attempt;
            var pause := if outcome.Succeeds? || attempt == 3 then 0 else if attempt == 1 then 100 else 200;
            && s.now <= end <= deadline
            && end - s.now <= 15_000 + pause
            && (outcome.TimesOut? ==> end == if s.now + 15_000 + pause <= deadline then s.now + 15_000 + pause else deadline)
            && (!outcome.TimesOut? && outcome.elapsed <= 15_000 ==>
                  end == if s.now + outcome.elapsed + pause <= deadline then s.now + outcome.elapsed + pause else deadline)
  {
  }

  lemma AttemptKeepsCounts(s: State, outcome: Outcome, e: nat, port: Port)
    requires Inv(s) && s.proc.Working?
    ensures CountOk(DoAttempt(s, outcome), e, port)
  {
    assert CountOk(s, e, port);
    AttemptCounts(s, outcome, e, port);
    AttemptMoves(s, outcome);
  }

  lemma StepKeepsCounts(s: State, a: Action, e: nat, port: Port)
    requires Inv(s)
    ensures CountOk(Apply(s, a), e, port)
  {
    assert CountOk(s, e, port);
    if a.Attempt? && s.proc.Working? { AttemptKeepsCounts(s, a.outcome, e, port); }
  }

  lemma StepKeepsInv(s: State, a: Action)
    requires Inv(s)
    ensures Inv(Apply(s, a))
  {
    StepKeepsProcOk(s, a);
    StepKeepsEvents(s, a);
    forall e, port ensures CountOk(Apply(s, a), e, port) { StepKeepsCounts(s, a, e, port); }
  }

  lemma {:induction false} RunKeepsInv(s: State, actions: seq<Action>)
    requires Inv(s)
    ensures Inv(Runs(s, actions))
    decreases |actions|
  {
    if actions != [] {
      StepKeepsInv(s, actions[0]);
      RunKeepsInv(Apply(s, actions[0]), actions[1..]);
    }
  }

  // ---------- the main results ----------

  /** The saved step, with "nothing saved" below them all. */
  function Progress(s: State): int { if s.stored.Some? then Rank(s.stored.value.step) else -1 }

  /** A deadline once saved stays; records saved without one are given one by the next execution. */
  predicate DeadlineKept(s: State, s': State) {
    s.stored.Some? && s.stored.value.deadlineAt.Some? ==>
      s'.stored.Some? && s'.stored.value.deadlineAt == s.stored.value.deadlineAt
  }

  lemma StepAdvances(s: State, a: Action)
    requires Inv(s)
    ensures Progress(s) <= Progress(Apply(s, a))
    ensures s.stored.Some? ==> Apply(s, a).stored.Some? && SameSaga(Apply(s, a).stored.value, s.stored.value)
    ensures DeadlineKept(s, Apply(s, a))
  {
  }

  /** Whatever crashes and restarts happen, the saved step never falls back, nor does its deadline move. */
  lemma {:induction false} SavedStepOnlyAdvances(s: State, actions: seq<Action>)
    requires Inv(s)
    ensures Progress(s) <= Progress(Runs(s, actions))
    ensures DeadlineKept(s, Runs(s, actions))
    decreases |actions|
  {
    if actions != [] {
      StepKeepsInv(s, actions[0]);
      StepAdvances(s, actions[0]);
      SavedStepOnlyAdvances(Apply(s, actions[0]), actions[1..]);
    }
  }

  lemma StepSparesSaved(s: State, a: Action, e: nat, port: Port)
    requires Inv(s) && Index(port) < Progress(s)
    ensures Calls(Apply(s, a).log, e, port) == Calls(s.log, e, port)
  {
    if a.Attempt? && s.proc.Working? { AttemptCounts(s, a.outcome, e, port); }
  }

  /** Once a step is saved, the effect behind it is never called again. */
  lemma {:induction false} SavedEffectsAreNotRepeated(s: State, actions: seq<Action>, e: nat, port: Port)
    requires Inv(s) && Index(port) < Progress(s)
    ensures Calls(Runs(s, actions).log, e, port) == Calls(s.log, e, port)
    decreases |actions|
  {
    if actions != [] {
      StepKeepsInv(s, actions[0]);
      StepAdvances(s, actions[0]);
      StepSparesSaved(s, actions[0], e, port);
      SavedEffectsAreNotRepeated(Apply(s, actions[0]), actions[1..], e, port);
    }
  }

  /** No call that starts after a save misses the saved deadline. */
  lemma CallsMeetTheDeadline(s: State, outcome: Outcome)
    requires Inv(s) && s.stored.Some? && s.stored.value.deadlineAt.Some?
    ensures var s' := Apply(s, Attempt(outcome));
            s'.log != s.log ==>
              && s.now < s.stored.value.deadlineAt.value
              && s'.log[|s.log|] == Called(Owed(s.proc.saga).value, s.now, s.execution, s.stored.value.deadlineAt.value)
  {
  }

  /**
   The saga's promise over every run: effects are called in order, each only after the previous
   one was seen to succeed; an execution calls an effect at most three times, each time before its
   deadline; a saga saved as completed has achieved everything it owed.
   */
  lemma SagaKeepsItsOrder(actions: seq<Action>)
    ensures var s := Runs(EMPTY, actions);
            && (forall k :: 0 <= k < |s.log| ==> EventOk(s.log, k))
            && (forall e, port :: Calls(s.log, e, port) <= MAX_ATTEMPTS)
            && (s.stored.Some? && s.stored.value.step.COMPLETED? ==>
                  && Achieved(s.log, CancelOrder) && Achieved(s.log, ReleaseStock)
                  && (s.stored.value.paymentId.Some? ==> Achieved(s.log, RefundPayment)))
  {
    forall e, port ensures CountOk(EMPTY, e, port) {}
    RunKeepsInv(EMPTY, actions);
    var s := Runs(EMPTY, actions);
    forall e, port ensures Calls(s.log, e, port) <= MAX_ATTEMPTS { assert CountOk(s, e, port); }
  }

  /**
   What the saga does not promise: a crash between an effect and its save repeats the effect.
   */
  const REPEATED: seq<Action> :=
    [Start(1, None), Attempt(Succeeds(0)), Crash, Start(1, None), Attempt(Succeeds(0))]

  lemma CrashRepeatsAnEffect()
    ensures var log := Runs(EMPTY, REPEATED).log;
            |log| == 4 && log[1] == Succeeded(CancelOrder) && log[2].Called? && log[2].port == CancelOrder && log[2].execution != log[0].execution
  {
  }
}
