/**
 How often a handler body can succeed for one event.  Once, as long as no relay loses a row
 while its handlers run and every result reaches the log; without that, more than once.
 */
module OutboxDelivery {
  import opened Wrappers
  import opened OutboxTable
  import opened OutboxProtocol
  import opened OutboxSafety

  /** The relay is running handlers for the event. */
  predicate HandlingOf(s: State, r: Owner, id: EventId) {
    RelayOf(s, r).queue != [] && RelayOf(s, r).stage.Handling? && Head(s, r).id == id
  }

  /** Every row whose handlers are running still carries the lock of the relay running them. */
  ghost predicate LocksKept(s: State) {
    forall r: Owner, id :: HandlingOf(s, r, id) ==> id in s.db.rows && s.db.rows[id].lockOwner == Some(r)
  }

  predicate Unrecorded(s: State, r: Owner) {
    RelayOf(s, r).stage.Handling? && Recording(true) in RelayOf(s, r).stage.phases
  }

  /** No result is dropped: neither by a failing log write nor by a crash before the write. */
  predicate ResultKept(s: State, a: Action) {
    && (a.Record? ==> a.reply != LostBeforeCommit)
    && (a.Crash? ==> !Unrecorded(s, a.r))
  }

  ghost predicate Undisturbed(c: Config, s: State, actions: seq<Action>)
    decreases |actions|
  {
    && LocksKept(s)
    && (actions != [] ==> ResultKept(s, actions[0]) && Undisturbed(c, Apply(c, s, actions[0]), actions[1..]))
  }

  ghost predicate DistinctHandlers(c: Config) {
    forall name, i, j :: 0 <= i < j < |c.Handlers(name)| ==> c.Handlers(name)[i] != c.Handlers(name)[j]
  }

  /** The handler's body has succeeded and its result is on the way to the log. */
  ghost predicate BeingRecorded(c: Config, s: State, r: Owner, i: nat, id: EventId, h: HandlerName) {
    InPhase(c, s, r, i, Recording(true)) && Head(s, r).id == id && Hands(c, Head(s, r))[i] == h
  }

  ghost predicate Logged(s: State, id: EventId, h: HandlerName) {
    (id, h) in s.db.log && s.db.log[(id, h)]
  }

  ghost predicate Once(c: Config, s: State) {
    && (forall k :: s.bodies[k] <= 1)
    && (forall k :: k in s.bodies ==> k.0 in s.names)
    && (forall id, h :: (id, h) in s.bodies && id in s.db.rows ==>
          Logged(s, id, h) || exists r: Owner, i: nat :: BeingRecorded(c, s, r, i, id, h))
    && (forall r: Owner, i: nat :: Started(c, s, r, i) ==>
          (Head(s, r).id, Hands(c, Head(s, r))[i]) !in s.bodies)
  }

  lemma RecordGetsThere(c: Config, s: State, r: Owner, j: nat, reply: Reply, i: nat, id: EventId, h: HandlerName)
    requires reply != LostBeforeCommit && BeingRecorded(c, s, r, i, id, h) && id in s.db.rows
    ensures Logged(DoRecord(c, s, r, j, reply), id, h) || BeingRecorded(c, DoRecord(c, s, r, j, reply), r, i, id, h)
  {
  }

  lemma OwnRecordingIsKept(c: Config, s: State, a: Action, r: Owner, i: nat, id: EventId, h: HandlerName)
    requires ResultKept(s, a) && !a.Record? && Actor(a) == Some(r) && BeingRecorded(c, s, r, i, id, h)
    ensures BeingRecorded(c, Apply(c, s, a), r, i, id, h)
  {
    assert RelayOf(s, r).stage.phases[i] == Recording(true);
  }

  /** A success on its way to the log gets there, or stays on its way. */
  lemma RecordingIsKept(c: Config, s: State, a: Action, r: Owner, i: nat, id: EventId, h: HandlerName)
    requires Inv(c, s) && LocksKept(s) && ResultKept(s, a) && BeingRecorded(c, s, r, i, id, h)
    ensures Logged(Apply(c, s, a), id, h) || BeingRecorded(c, Apply(c, s, a), r, i, id, h)
  {
    assert HandlingOf(s, r, id);
    if Actor(a) != Some(r) {
      OthersRely(c, s, a, r);
    } else if a.Record? {
      RecordGetsThere(c, s, r, a.i, a.reply, i, id, h);
    } else {
      OwnRecordingIsKept(c, s, a, r, i, id, h);
    }
  }

  lemma LogUntouched(c: Config, s: State, a: Action)
    requires !a.Record? && !a.Cleanup?
    ensures Apply(c, s, a).db.log == s.db.log
  {
  }

  lemma RecordKeepsLogged(c: Config, s: State, r: Owner, i: nat, reply: Reply, id: EventId, h: HandlerName)
    requires Inv(c, s) && Once(c, s) && Logged(s, id, h)
    ensures Logged(DoRecord(c, s, r, i, reply), id, h)
  {
    if InPhase(c, s, r, i, Recording(false)) { assert Started(c, s, r, i); }
  }

  lemma LoggedIsKept(c: Config, s: State, a: Action, id: EventId, h: HandlerName)
    requires Inv(c, s) && Once(c, s) && Logged(s, id, h) && id in Apply(c, s, a).db.rows
    ensures Logged(Apply(c, s, a), id, h)
  {
    match a
    case Record(r, i, reply) => RecordKeepsLogged(c, s, r, i, reply, id, h);
    case Cleanup(ids, cutoff) => assert id !in DeletedIds(s.db.rows, ids, cutoff);
    case _ => LogUntouched(c, s, a);
  }

  /** Only a handler body that completes adds a success, and only inserts add a row. */
  lemma NewSuccess(c: Config, s: State, a: Action, k: (EventId, HandlerName))
    ensures Apply(c, s, a).bodies[k] == s.bodies[k]
            || (a.Run? && a.success && BeingRecorded(c, Apply(c, s, a), a.r, a.i, k.0, k.1)
                && InPhase(c, s, a.r, a.i, Running) && k == (Head(s, a.r).id, Hands(c, Head(s, a.r))[a.i])
                && Apply(c, s, a).bodies[k] == s.bodies[k] + 1)
  {
  }

  lemma NamesStay(c: Config, s: State, a: Action, id: EventId)
    requires Inv(c, s) && id in s.names
    ensures id in Apply(c, s, a).names
  {
    var bystander: Owner := if Actor(a).Some? then Actor(a).value + 1 else 0;
    OthersRely(c, s, a, bystander);
  }

  lemma NewRow(c: Config, s: State, a: Action, id: EventId)
    requires id in Apply(c, s, a).db.rows && id in s.names
    ensures id in s.db.rows
  {
    if !a.Insert? && !Local(a) && Actor(a).Some? {
      assert Apply(c, s, a).db.rows.Keys <= s.db.rows.Keys;
    }
  }

  lemma SuccessesStayKnown(c: Config, s: State, a: Action, id: EventId, h: HandlerName)
    requires Inv(c, s) && Once(c, s) && LocksKept(s) && ResultKept(s, a)
    requires (id, h) in Apply(c, s, a).bodies && id in Apply(c, s, a).db.rows
    ensures var s' := Apply(c, s, a);
            Logged(s', id, h) || exists r: Owner, i: nat :: BeingRecorded(c, s', r, i, id, h)
  {
    NewSuccess(c, s, a, (id, h));
    if (id, h) in s.bodies {
      NewRow(c, s, a, id);
      if Logged(s, id, h) {
        LoggedIsKept(c, s, a, id, h);
      } else {
        var r: Owner, i: nat :| BeingRecorded(c, s, r, i, id, h);
        RecordingIsKept(c, s, a, r, i, id, h);
      }
    }
  }

  predicate Started(c: Config, s: State, r: Owner, i: nat) {
    InPhase(c, s, r, i, Running) || InPhase(c, s, r, i, Recording(false))
  }

  /** The log lookup lets a handler start only if its body has not succeeded yet. */
  lemma CheckStartsFresh(c: Config, s: State, r: Owner, i: nat, answered: bool)
    requires Once(c, s) && DistinctHandlers(c) && LocksKept(s)
    requires InPhase(c, s, r, i, Waiting) && InPhase(c, DoCheck(c, s, r, i, answered), r, i, Running)
    ensures (Head(s, r).id, Hands(c, Head(s, r))[i]) !in s.bodies
  {
    var id, h := Head(s, r).id, Hands(c, Head(s, r))[i];
    assert HandlingOf(s, r, id);
    if (id, h) in s.bodies {
      assert !Logged(s, id, h);
      var r2: Owner, i2: nat :| BeingRecorded(c, s, r2, i2, id, h);
      assert HandlingOf(s, r2, id);
      assert false;
    }
  }

  /** A handler that is running was already running, or was just let through by its log lookup. */
  lemma StartedBefore(c: Config, s: State, a: Action, r: Owner, i: nat)
    requires Actor(a) == Some(r) && Started(c, Apply(c, s, a), r, i)
    ensures RelayOf(s, r).queue != [] && RelayOf(s, r).queue == RelayOf(Apply(c, s, a), r).queue
    ensures RelayOf(s, r).stage.Handling?
    ensures Started(c, s, r, i)
            || (a.Check? && a.i == i && InPhase(c, s, r, i, Waiting) && InPhase(c, Apply(c, s, a), r, i, Running))
  {
  }

  lemma OwnStartsStayFresh(c: Config, s: State, a: Action, r: Owner, i: nat)
    requires Inv(c, s) && Once(c, s) && DistinctHandlers(c) && LocksKept(s)
    requires Actor(a) == Some(r) && Started(c, Apply(c, s, a), r, i)
    ensures var s' := Apply(c, s, a); (Head(s', r).id, Hands(c, Head(s', r))[i]) !in s'.bodies
  {
    StartedBefore(c, s, a, r, i);
    if !Started(c, s, r, i) { CheckStartsFresh(c, s, r, i, a.answered); }
    NewSuccess(c, s, a, (Head(s, r).id, Hands(c, Head(s, r))[i]));
  }

  lemma OthersStartsStayFresh(c: Config, s: State, a: Action, r: Owner, i: nat)
    requires Inv(c, s) && Once(c, s) && LocksKept(s) && Actor(a) != Some(r)
    requires Started(c, s, r, i)
    ensures (Head(s, r).id, Hands(c, Head(s, r))[i]) !in Apply(c, s, a).bodies
  {
    var k := (Head(s, r).id, Hands(c, Head(s, r))[i]);
    assert HandlingOf(s, r, k.0);
    NewSuccess(c, s, a, k);
    if k in Apply(c, s, a).bodies { assert HandlingOf(s, a.r, k.0); }
  }

  lemma StartsStayFresh(c: Config, s: State, a: Action, r: Owner, i: nat)
    requires Inv(c, s) && Once(c, s) && DistinctHandlers(c) && LocksKept(s) && Started(c, Apply(c, s, a), r, i)
    ensures var s' := Apply(c, s, a); (Head(s', r).id, Hands(c, Head(s', r))[i]) !in s'.bodies
  {
    if Actor(a) == Some(r) {
      OwnStartsStayFresh(c, s, a, r, i);
    } else {
      OthersRely(c, s, a, r);
      OthersStartsStayFresh(c, s, a, r, i);
    }
  }

  lemma SuccessesStaySingle(c: Config, s: State, a: Action, k: (EventId, HandlerName))
    requires Inv(c, s) && Once(c, s)
    ensures var s' := Apply(c, s, a); s'.bodies[k] <= 1 && (k in s'.bodies ==> k.0 in s'.names)
  {
    NewSuccess(c, s, a, k);
    if a.Run? {
      assert RelayOk(c, s, a.r);
      if InPhase(c, s, a.r, a.i, Running) { assert Started(c, s, a.r, a.i); }
    }
    if k.0 in s.names { NamesStay(c, s, a, k.0); }
  }

  lemma StepKeepsOnce(c: Config, s: State, a: Action)
    requires Inv(c, s) && Once(c, s) && DistinctHandlers(c) && LocksKept(s) && ResultKept(s, a)
    ensures Once(c, Apply(c, s, a))
  {
    var s' := Apply(c, s, a);
    forall k ensures s'.bodies[k] <= 1 && (k in s'.bodies ==> k.0 in s'.names) { SuccessesStaySingle(c, s, a, k); }
    forall r: Owner, i: nat | Started(c, s', r, i)
      ensures (Head(s', r).id, Hands(c, Head(s', r))[i]) !in s'.bodies
    {
      StartsStayFresh(c, s, a, r, i);
    }
    forall id, h | (id, h) in s'.bodies && id in s'.db.rows
      ensures Logged(s', id, h) || exists r: Owner, i: nat :: BeingRecorded(c, s', r, i, id, h)
    {
      SuccessesStayKnown(c, s, a, id, h);
    }
  }

  /** The main result: in an undisturbed run no handler body succeeds twice for an event. */
  lemma {:induction false} HandlersSucceedAtMostOnce(c: Config, s: State, actions: seq<Action>)
    requires Inv(c, s) && Once(c, s) && DistinctHandlers(c) && Undisturbed(c, s, actions)
    ensures Once(c, Runs(c, s, actions))
    ensures forall id, h :: Runs(c, s, actions).bodies[(id, h)] <= 1
    decreases |actions|
  {
    if actions != [] {
      StepKeepsInv(c, s, actions[0]);
      StepKeepsOnce(c, s, actions[0]);
      HandlersSucceedAtMostOnce(c, Apply(c, s, actions[0]), actions[1..]);
    }
  }

  lemma UndisturbedRunsHandleOnce(c: Config, now: Time, actions: seq<Action>)
    requires c.maxAttempts >= 1 && DistinctHandlers(c) && Undisturbed(c, Initial(now), actions)
    ensures forall id, h :: Runs(c, Initial(now), actions).bodies[(id, h)] <= 1
  {
    InitialInv(c, now);
    HandlersSucceedAtMostOnce(c, Initial(now), actions);
  }

  // ---------- why the conditions are needed ----------

  /** A body that completed without reaching the log is run again by the next look-up. */
  lemma UnloggedSuccessIsRepeated(c: Config, s: State, r: Owner, i: nat)
    requires InPhase(c, s, r, i, Waiting)
    requires var k := (Head(s, r).id, Hands(c, Head(s, r))[i]); k in s.bodies && !Logged(s, k.0, k.1)
    ensures var k := (Head(s, r).id, Hands(c, Head(s, r))[i]);
            Apply(c, Apply(c, s, Check(r, i, true)), Run(r, i, true)).bodies[k] >= 2
  {
    var k := (Head(s, r).id, Hands(c, Head(s, r))[i]);
    var s1 := Apply(c, s, Check(r, i, true));
    assert InPhase(c, s1, r, i, Running) && s1.bodies == s.bodies;
    assert Apply(c, s1, Run(r, i, true)).bodies == s1.bodies + multiset{k};
  }

  lemma IdleRelayClaims(c: Config, s: State, r: Owner, id: EventId)
    requires c.batchSize >= 1 && RelayOf(s, r).queue == [] && RelayOf(s, r).stage.Idle?
    requires id in s.db.rows && Claimable(s.db.rows[id], c.maxAttempts, s.db.now)
    ensures var s', w := Apply(c, Apply(c, s, Poll(r, [id])), Begin(r)), Work(id, s.db.rows[id].eventName, s.db.rows[id].attempts);
            && RelayOf(s', r).queue == [w] && RelayOf(s', r).stage == Handling(1, AllWaiting(|Hands(c, w)|))
            && s'.bodies == s.bodies && s'.db.log == s.db.log
  {
    assert CanPoll(c, s, r, [id]);
    var s1 := Apply(c, s, Poll(r, [id]));
    assert id in Elements([id]) && id in RelayOf(s1, r).active;
  }

  /**
   Why the lease condition is needed, from every state: once the lease of a row runs out while a
   success of its handler is still on the way to the log, an idle relay can claim the row and the
   same body succeeds again.
   */
  lemma ExpiredLeaseRepeatsHandler(c: Config, s: State, r: Owner, i: nat, id: EventId, h: HandlerName, other: Owner)
    requires Inv(c, s) && c.batchSize >= 1 && BeingRecorded(c, s, r, i, id, h) && !Logged(s, id, h)
    requires id in s.db.rows && Claimable(s.db.rows[id], c.maxAttempts, s.db.now)
    requires RelayOf(s, other).queue == [] && RelayOf(s, other).stage.Idle?
    ensures Runs(c, s, [Poll(other, [id]), Begin(other), Check(other, i, true), Run(other, i, true)]).bodies[(id, h)] >= 2
  {
    assert RelayOk(c, s, r) && WorkOk(s, r, Head(s, r));
    IdleRelayClaims(c, s, other, id);
    var s' := Apply(c, Apply(c, s, Poll(other, [id])), Begin(other));
    assert Head(s', other).id == id && Hands(c, Head(s', other)) == Hands(c, Head(s, r));
    assert InPhase(c, s', other, i, Waiting);
    UnloggedSuccessIsRepeated(c, s', other, i);
    RunsFour(c, s, [Poll(other, [id]), Begin(other), Check(other, i, true), Run(other, i, true)]);
  }

  const ONE_HANDLER := Config(10, 60_000, 50, map["OrderPlaced" := ["OrderPlacedHandler"]])

  const SUCCESS := multiset{(7, "OrderPlacedHandler")}

  function Working(phase: Phase): Relay { Relay([Work(7, "OrderPlaced", 0)], Handling(1, [phase]), {7}, None) }

  /** The state in which the one event has this row and these relays, with nothing logged. */
  function Midway(row: Row, now: Time, relays: map<Owner, Relay>, bodies: multiset<(EventId, HandlerName)>): State {
    State(Db(map[7 := row], map[], now), relays, map[7 := "OrderPlaced"], {}, bodies)
  }

  lemma PollStep(row: Row, now: Time, relays: map<Owner, Relay>, bodies: multiset<(EventId, HandlerName)>, r: Owner)
    requires r !in relays && row.eventName == "OrderPlaced" && row.attempts == 0 && Claimable(row, 10, now)
    ensures Apply(ONE_HANDLER, Midway(row, now, relays, bodies), Poll(r, [7]))
         == Midway(Lease(row, now, 60_000).(lockOwner := Some(r)), now,
                   relays[r := Relay([Work(7, "OrderPlaced", 0)], Idle, {7}, None)], bodies)
  {
    var s := Midway(row, now, relays, bodies);
    assert Elements([7]) == {7} && CanPoll(ONE_HANDLER, s, r, [7]);
    assert Snapshot(s.db.rows, [7]) == [Work(7, "OrderPlaced", 0)];
  }

  lemma BeginStep(row: Row, now: Time, relays: map<Owner, Relay>, bodies: multiset<(EventId, HandlerName)>, r: Owner)
    requires r in relays && relays[r] == Relay([Work(7, "OrderPlaced", 0)], Idle, {7}, None)
    ensures Apply(ONE_HANDLER, Midway(row, now, relays, bodies), Begin(r))
         == Midway(row, now, relays[r := Working(Waiting)], bodies)
  {
    assert AllWaiting(1) == [Waiting];
  }

  lemma CheckStep(row: Row, now: Time, relays: map<Owner, Relay>, bodies: multiset<(EventId, HandlerName)>, r: Owner)
    requires r in relays && relays[r] == Working(Waiting)
    ensures Apply(ONE_HANDLER, Midway(row, now, relays, bodies), Check(r, 0, true))
         == Midway(row, now, relays[r := Working(Running)], bodies)
  {
    assert [Waiting][0 := Running] == [Running];
  }

  lemma RunStep(row: Row, now: Time, relays: map<Owner, Relay>, bodies: multiset<(EventId, HandlerName)>, r: Owner)
    requires r in relays && relays[r] == Working(Running)
    ensures Apply(ONE_HANDLER, Midway(row, now, relays, bodies), Run(r, 0, true))
         == Midway(row, now, relays[r := Working(Recording(true))], bodies + SUCCESS)
  {
    assert [Running][0 := Recording(true)] == [Recording(true)];
  }

  function ClaimAndRun(r: Owner): seq<Action> { [Poll(r, [7]), Begin(r), Check(r, 0, true), Run(r, 0, true)] }

  lemma ClaimAndRunState(row: Row, now: Time, relays: map<Owner, Relay>, bodies: multiset<(EventId, HandlerName)>, r: Owner)
    requires r !in relays && row.eventName == "OrderPlaced" && row.attempts == 0 && Claimable(row, 10, now)
    ensures Runs(ONE_HANDLER, Midway(row, now, relays, bodies), ClaimAndRun(r))
         == Midway(Lease(row, now, 60_000).(lockOwner := Some(r)), now,
                   relays[r := Working(Recording(true))], bodies + SUCCESS)
  {
    var held := Lease(row, now, 60_000).(lockOwner := Some(r));
    var polled: map<Owner, Relay> := relays[r := Relay([Work(7, "OrderPlaced", 0)], Idle, {7}, None)];
    var begun: map<Owner, Relay> := polled[r := Working(Waiting)];
    var checked: map<Owner, Relay> := begun[r := Working(Running)];
    PollStep(row, now, relays, bodies, r);
    BeginStep(held, now, polled, bodies, r);
    CheckStep(held, now, begun, bodies, r);
    RunStep(held, now, checked, bodies, r);
    RunsFour(ONE_HANDLER, Midway(row, now, relays, bodies), ClaimAndRun(r));
    assert checked[r := Working(Recording(true))]
        == relays[r := Working(Recording(true))];
  }

  lemma InsertStep()
    ensures Apply(ONE_HANDLER, Initial(0), Action.Insert(7, "OrderPlaced", 0))
         == Midway(Row("OrderPlaced", 0, 0, None, None, None, None, None), 0, map[], multiset{})
  {
  }

  lemma TickStep(row: Row, relays: map<Owner, Relay>, bodies: multiset<(EventId, HandlerName)>)
    ensures Apply(ONE_HANDLER, Midway(row, 0, relays, bodies), Action.Tick(60_001)) == Midway(row, 60_001, relays, bodies)
  {
  }

  /**
   Such a state is reached from an empty outbox: relay 1 claims the event and its handler body succeeds;
   its lease runs out before the result is stored, and relay 2 runs the same body again.
   */
  lemma StaleRelayRepeatsHandler()
    ensures var stale := [Action.Insert(7, "OrderPlaced", 0)] + (ClaimAndRun(1) + ([Action.Tick(60_001)] + ClaimAndRun(2)));
            Runs(ONE_HANDLER, Initial(0), stale).bodies[(7, "OrderPlacedHandler")] == 2
  {
    var c := ONE_HANDLER;
    var later := [Action.Tick(60_001)] + ClaimAndRun(2);
    var unclaimed := Row("OrderPlaced", 0, 0, None, None, None, None, None);
    var held := Lease(unclaimed, 0, 60_000).(lockOwner := Some(1));
    var working: map<Owner, Relay> := map[1 := Working(Recording(true))];
    RunsCons(c, Initial(0), Action.Insert(7, "OrderPlaced", 0), ClaimAndRun(1) + later);
    InsertStep();
    RunsAppend(c, Midway(unclaimed, 0, map[], multiset{}), ClaimAndRun(1), later);
    ClaimAndRunState(unclaimed, 0, map[], multiset{}, 1);
    assert multiset{} + SUCCESS == SUCCESS;
    RunsCons(c, Midway(held, 0, working, SUCCESS), Action.Tick(60_001), ClaimAndRun(2));
    TickStep(held, working, SUCCESS);
    ClaimAndRunState(held, 60_001, working, SUCCESS, 2);
  }
}
