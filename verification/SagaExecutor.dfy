/** `execute` and `executeSagaStep` as programs; every outside answer, a crash included, is arbitrary. */
module SagaExecutor {
  import opened Wrappers
  import opened CancellationSaga

  datatype SagaError = DeadlineExceeded | StepFailed(port: Port) | SaveFailed | ProcessCrashed

  /** What the next await brings. */
  datatype Answer = Answer(crash: bool, outcome: Outcome, fate: SaveFate, elapsed: nat)

  lemma RunsAppend(s: State, actions: seq<Action>, a: Action)
    ensures Runs(s, actions + [a]) == Apply(Runs(s, actions), a)
    decreases |actions|
  {
    if actions == [] {
      assert actions + [a] == [a];
      assert Runs(Apply(s, a), [a][1..]) == Apply(s, a);
    } else {
      assert (actions + [a])[1..] == actions[1..] + [a];
      RunsAppend(Apply(s, actions[0]), actions[1..], a);
    }
  }

  /** One attempt at the owed effect, spelled out. */
  lemma AttemptIs(s: State, saga: Saga, port: Port, deadline: nat, attempt: nat, outcome: Outcome)
    requires s.proc == Working(saga, deadline, attempt) && Owed(saga) == Some(port)
    requires s.now < deadline && 1 <= attempt <= MAX_ATTEMPTS
    ensures var log := s.log + [Called(port, s.now, s.execution, deadline)];
            var now := s.now + Elapsed(outcome, if TIMEOUT_MS < deadline - s.now then TIMEOUT_MS else deadline - s.now);
            Apply(s, Attempt(outcome)) ==
              if outcome.Succeeds? then s.(log := log + [Succeeded(port)], now := now, proc := Saving(saga.(step := After(port)), deadline))
              else if attempt == MAX_ATTEMPTS then s.(log := log, now := now, proc := Down)
              else s.(log := log, now := now + Delay(attempt, now, deadline), proc := Working(saga, deadline, attempt + 1))
  {
  }

  class CancellationRefundSaga {
    const oracle: nat -> Answer
    var asked: nat
    var state: State
    ghost var trace: seq<Action>
    ghost const initial: State

    constructor(oracle: nat -> Answer, state: State)
      requires Inv(state)
      ensures Valid() && this.oracle == oracle && this.state == initial == state && trace == []
    {
      this.oracle, this.state, asked, trace, initial := oracle, state, 0, [], state;
    }

    /** Everything that happened is a run of the saga's machine. */
    ghost predicate Valid()
      reads this
    {
      Inv(state) && state == Runs(initial, trace)
    }

    method Ask() returns (answer: Answer)
      modifies this`asked
      ensures asked == old(asked) + 1 && answer == oracle(old(asked))
    {
      answer := oracle(asked);
      asked := asked + 1;
    }

    /** Time passes. */
    method Wait(elapsed: nat)
      requires Valid()
      modifies this`state, this`trace
      ensures Valid() && state == old(state).(now := old(state).now + elapsed) && trace == old(trace) + [Tick(elapsed)]
    {
      StepKeepsInv(state, Tick(elapsed));
      RunsAppend(initial, trace, Tick(elapsed));
      state := state.(now := state.now + elapsed);
      trace := trace + [Tick(elapsed)];
    }

    method Stop()
      requires Valid()
      modifies this`state, this`trace
      ensures Valid() && state == old(state).(proc := Down)
    {
      StepKeepsInv(state, Crash);
      RunsAppend(initial, trace, Crash);
      state := state.(proc := Down);
      trace := trace + [Crash];
    }

    /** What has to have happened for an execution to fail this way. */
    predicate Caused(e: SagaError, asked: nat, now: nat, deadline: nat) {
      match e
      case DeadlineExceeded => deadline <= now
      case StepFailed(_) => asked >= 3 && forall k :: asked - 3 <= k < asked ==> !oracle(k).outcome.Succeeds?
      case SaveFailed => asked >= 1 && !oracle(asked - 1).fate.Stored?
      case ProcessCrashed => asked >= 1 && oracle(asked - 1).crash
    }

    /** One round of the loop: wait for the world, then call unless the process died or the deadline is over. */
    method AttemptOnce(saga: Saga, port: Port, deadline: nat, attempt: nat) returns (r: Option<Result<(), SagaError>>)
      requires Valid() && state.proc == Working(saga, deadline, attempt) && Owed(saga) == Some(port) && 1 <= attempt <= 3
      modifies this`asked, this`state, this`trace
      ensures Valid() && state.stored == old(state).stored && state.execution == old(state).execution && asked == old(asked) + 1
      ensures var answer, before, after := oracle(old(asked)), Calls(old(state).log, old(state).execution, port), Calls(state.log, state.execution, port);
              match r
              case None =>
                && !answer.crash && !answer.outcome.Succeeds? && attempt < 3
                && state.proc == Working(saga, deadline, attempt + 1) && after == before + 1
              case Some(Success(_)) =>
                && !answer.crash && answer.outcome.Succeeds?
                && state.proc == Saving(saga.(step := After(port)), deadline) && after == before + 1
              case Some(Failure(e)) =>
                && state.proc == Down
                && match e
                   case StepFailed(p) => p == port && !answer.crash && !answer.outcome.Succeeds? && attempt == 3 && after == before + 1
                   case DeadlineExceeded => deadline <= state.now && after == before
                   case ProcessCrashed => answer.crash && after == before
                   case SaveFailed => false
    {
      var answer := Ask();
      Wait(answer.elapsed);
      if answer.crash { Stop(); return Some(Failure(ProcessCrashed)); }
      if deadline <= state.now { Stop(); return Some(Failure(DeadlineExceeded)); }
      AttemptCounts(state, answer.outcome, state.execution, port);
      AttemptMoves(state, answer.outcome);
      var succeeded := CallOnce(saga, port, deadline, attempt, answer.outcome);
      if succeeded { return Some(Success(())); }
      if attempt == MAX_ATTEMPTS { return Some(Failure(StepFailed(port))); }
      r := None;
    }

    /**
     At most three calls, none at or after the deadline, each raced against its time-out: the first
     success counts, and only three failures make the step fail.
     */
    method ExecuteSagaStep(saga: Saga, port: Port, deadline: nat) returns (r: Result<(), SagaError>)
      requires Valid() && state.proc == Working(saga, deadline, 1) && Owed(saga) == Some(port)
      modifies this`asked, this`state, this`trace
      ensures Valid() && state.stored == old(state).stored && state.execution == old(state).execution
      ensures r.Success? ==> state.proc == Saving(saga.(step := After(port)), deadline)
      ensures r.Failure? ==> state.proc == Down
      ensures Calls(state.log, state.execution, port) <= 3
      ensures r.Success? ==> asked >= 1 && !oracle(asked - 1).crash && oracle(asked - 1).outcome.Succeeds?
      ensures r.Failure? ==> Caused(r.error, asked, state.now, deadline) && !r.error.SaveFailed?
      ensures r.Failure? && r.error.StepFailed? ==> r.error.port == port && asked == old(asked) + 3 && Calls(state.log, state.execution, port) == 3
      ensures old(asked) < asked <= old(asked) + 3
      ensures forall k :: old(asked) <= k < asked - 1 ==> !oracle(k).crash && !oracle(k).outcome.Succeeds?
    {
      assert CountOk(state, state.execution, port);
      var attempt := 1;
      while attempt <= MAX_ATTEMPTS
        invariant 1 <= attempt <= MAX_ATTEMPTS && Valid() && state.proc == Working(saga, deadline, attempt)
        invariant state.stored == old(state).stored && state.execution == old(state).execution
        invariant asked == old(asked) + attempt - 1 && Calls(state.log, state.execution, port) == attempt - 1
        invariant forall k :: old(asked) <= k < asked ==> !oracle(k).crash && !oracle(k).outcome.Succeeds?
        decreases MAX_ATTEMPTS - attempt
      {
        var ended := AttemptOnce(saga, port, deadline, attempt);
        if ended.Some? { return ended.value; }
        attempt := attempt + 1;
      }
    }

    /** One call and, if another is allowed, the back-off after it. */
    method CallOnce(saga: Saga, port: Port, deadline: nat, attempt: nat, outcome: Outcome) returns (succeeded: bool)
      requires Valid() && state.proc == Working(saga, deadline, attempt) && Owed(saga) == Some(port)
      requires state.now < deadline && 1 <= attempt <= MAX_ATTEMPTS
      modifies this`state, this`trace
      ensures Valid() && state == Apply(old(state), Attempt(outcome))
      ensures succeeded == outcome.Succeeds?
      ensures state.proc == if succeeded then Saving(saga.(step := After(port)), deadline)
                            else if attempt == MAX_ATTEMPTS then Down else Working(saga, deadline, attempt + 1)
    {
      AttemptIs(state, saga, port, deadline, attempt, outcome);
      StepKeepsInv(state, Attempt(outcome));
      RunsAppend(initial, trace, Attempt(outcome));
      trace := trace + [Attempt(outcome)];
      var remaining := deadline - state.now;
      var limit := if TIMEOUT_MS < remaining then TIMEOUT_MS else remaining;
      var log := state.log + [Called(port, state.now, state.execution, deadline)];
      var now := state.now + Elapsed(outcome, limit);
      if outcome.Succeeds? {
        state := state.(log := log + [Succeeded(port)], now := now, proc := Saving(saga.(step := After(port)), deadline));
        return true;
      }
      if attempt == MAX_ATTEMPTS {
        state := state.(log := log, now := now, proc := Down);
        return false;
      }
      state := state.(log := log, now := now + Delay(attempt, now, deadline), proc := Working(saga, deadline, attempt + 1));
      return false;
    }

    method SaveState(saga: Saga, deadline: nat) returns (r: Result<(), SagaError>)
      requires Valid() && state.proc == Saving(saga, deadline)
      modifies this`asked, this`state, this`trace
      ensures Valid() && state.log == old(state).log && state.execution == old(state).execution
      ensures r.Success? ==> state.stored == Some(saga) && state.proc == (if saga.step.COMPLETED? then Done(saga) else Resume(saga, deadline))
      ensures r.Failure? ==> state.proc == Down && (state.stored == Some(saga) || state.stored == old(state).stored)
      ensures asked == old(asked) + 1
      ensures var answer := oracle(old(asked));
              && r == (if answer.crash then Failure(ProcessCrashed) else if answer.fate.Stored? then Success(()) else Failure(SaveFailed))
              && state.stored == if answer.crash || answer.fate.NotStored? then old(state).stored else Some(saga)
    {
      var answer := Ask();
      Wait(answer.elapsed);
      if answer.crash { Stop(); return Failure(ProcessCrashed); }
      StepKeepsInv(state, Save(answer.fate));
      RunsAppend(initial, trace, Save(answer.fate));
      trace := trace + [Save(answer.fate)];
      match answer.fate
      case Stored =>
        state := state.(stored := Some(saga), proc := if saga.step.COMPLETED? then Done(saga) else Resume(saga, deadline));
        return Success(());
      case StoredButLost =>
        state := state.(stored := Some(saga), proc := Down);
        return Failure(SaveFailed);
      case NotStored =>
        state := state.(proc := Down);
        return Failure(SaveFailed);
    }

    /** The saved deadline, or two minutes from now. */
    function Due(s: State): nat {
      if s.stored.Some? && s.stored.value.deadlineAt.Some? then s.stored.value.deadlineAt.value else s.now + 120_000
    }

    /** Load the saga, or begin one under a new deadline. */
    method LoadOrBegin(orderId: nat, paymentId: Option<nat>) returns (saga: Saga, deadline: nat)
      requires Valid() && (state.proc.Down? || state.proc.Done?)
      modifies this`state, this`trace
      ensures Valid() && state == Apply(old(state), Start(orderId, paymentId))
      ensures state.proc == Resume(saga, deadline) && saga.deadlineAt == Some(deadline)
      ensures old(state).stored.Some? ==> saga == old(state).stored.value.(deadlineAt := Some(deadline))
      ensures old(state).stored.None? ==> saga == Saga(orderId, paymentId, STARTED, Some(deadline))
      ensures deadline == Due(old(state))
    {
      StepKeepsInv(state, Start(orderId, paymentId));
      RunsAppend(initial, trace, Start(orderId, paymentId));
      trace := trace + [Start(orderId, paymentId)];
      if state.stored.Some? {
        saga := state.stored.value;
      } else {
        saga := Saga(orderId, paymentId, STARTED, Some(state.now + SAGA_TIMEOUT_MS));
      }
      deadline := if saga.deadlineAt.Some? then saga.deadlineAt.value else state.now + SAGA_TIMEOUT_MS;
      saga := saga.(deadlineAt := Some(deadline));
      state := state.(execution := state.execution + 1, proc := Resume(saga, deadline));
    }

    method RunStep(before: Saga, port: Port, deadline: nat) returns (r: Result<Saga, SagaError>)
      requires Valid() && state.proc == Working(before, deadline, 1) && Owed(before) == Some(port)
      modifies this`asked, this`state, this`trace
      ensures Valid()
      ensures r.Success? ==> r.value == before.(step := After(port)) && state.stored == Some(r.value) && state.proc == Resume(r.value, deadline)
      ensures r.Failure? ==> state.proc == Down && Caused(r.error, asked, state.now, deadline)
    {
      var done := ExecuteSagaStep(before, port, deadline);
      if done.Failure? { return Failure(done.error); }
      var saga := before.(step := After(port));
      var saved := SaveState(saga, deadline);
      if saved.Failure? { return Failure(saved.error); }
      r := Success(saga);
    }

    /** The effects that are still owed, one after the other. */
    method RunSteps(before: Saga, deadline: nat) returns (r: Result<Saga, SagaError>)
      requires Valid() && state.proc == Resume(before, deadline)
      modifies this`asked, this`state, this`trace
      ensures Valid()
      ensures match r
              case Success(saga) =>
                Owed(saga).None? && SameSaga(saga, before) && state.proc == Saving(saga.(step := COMPLETED), deadline)
              case Failure(e) => state.proc == Down && Caused(e, asked, state.now, deadline)
    {
      var saga := before;
      if saga.step.STARTED? {
        r := RunStep(saga, CancelOrder, deadline);
        if r.Failure? { return; }
        saga := r.value;
      }
      if saga.step.ORDER_CANCELLED? {
        r := RunStep(saga, ReleaseStock, deadline);
        if r.Failure? { return; }
        saga := r.value;
      }
      if saga.step.STOCK_RELEASED? && saga.paymentId.Some? {
        r := RunStep(saga, RefundPayment, deadline);
        if r.Failure? { return; }
        saga := r.value;
      }
      r := Success(saga);
    }

    /** A returned saga is completed, stored, and has achieved everything it owed; every failure has its cause. */
    method Execute(orderId: nat, paymentId: Option<nat>) returns (r: Result<Saga, SagaError>)
      requires Valid() && (state.proc.Down? || state.proc.Done?)
      modifies this`asked, this`state, this`trace
      ensures Valid()
      ensures match r
              case Success(saga) =>
                && state.proc == Done(saga) && state.stored == Some(saga) && saga.step.COMPLETED?
                && SameSaga(saga, if old(state).stored.Some? then old(state).stored.value else Saga(orderId, paymentId, STARTED, None))
                && Achieved(state.log, CancelOrder) && Achieved(state.log, ReleaseStock)
                && (saga.paymentId.Some? ==> Achieved(state.log, RefundPayment))
              case Failure(e) => state.proc == Down && Caused(e, asked, state.now, Due(old(state)))
    {
      var saga, deadline := LoadOrBegin(orderId, paymentId);
      r := RunSteps(saga, deadline);
      if r.Failure? { return; }
      saga := r.value.(step := COMPLETED);
      var saved := SaveState(saga, deadline);
      if saved.Failure? { return Failure(saved.error); }
      r := Success(saga);
    }
  }
}
