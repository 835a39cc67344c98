/**
 The relay's own program: `pollOnce`, `publishRow` and `EventBus.publish`, with their loops.  At
 every await the rest of the system may take any actions (`env`), and every outside answer comes
 from `oracle`; both are arbitrary, so the contracts hold under every interleaving.
 */
module OutboxRelay {
  import opened Wrappers
  import opened Numbers
  import opened OutboxTable
  import opened OutboxProtocol
  import opened OutboxSafety

  /** Outside answers at one await: a lookup, a handler body, a log write, a lost statement reply. */
  datatype Answer = Answer(decodable: bool, answered: bool, success: bool, reply: Reply, order: seq<EventId>)

  /** Anything but a step of this relay's own loop; its heartbeat timer may fire. */
  predicate Foreign(r: Owner, a: Action) {
    Actor(a) != Some(r) || a.Heartbeat? || a.HeartbeatReply?
  }

  predicate Holds(s: State, r: Owner, id: EventId) { Accepts(s.db.rows, id, r, s.db.now) }

  /** Rows the relay does not hold do not come to it unless it claims them. */
  ghost predicate NoneRegained(s: State, s': State, r: Owner) {
    forall id :: Holds(s', r, id) ==> Holds(s, r, id)
  }

  /** The loop position is the relay's own. */
  ghost predicate LoopKept(s: State, s': State, r: Owner) {
    && RelayOf(s', r).queue == RelayOf(s, r).queue
    && RelayOf(s', r).stage == RelayOf(s, r).stage
    && NoneRegained(s, s', r)
  }

  /** Ids that the heartbeat in flight found lost; its reply will take them out of the active set. */
  function LostIds(relay: Relay): set<EventId> {
    if relay.beat.Some? then relay.beat.value.sent - relay.beat.value.renewed else {}
  }

  /** What a heartbeat reports lost, and what is no longer active, is not held, except for `late` ids. */
  ghost predicate Fenced(s: State, r: Owner, late: set<EventId>) {
    && (forall id :: id in LostIds(RelayOf(s, r)) && id !in late ==> !Holds(s, r, id))
    && (forall k :: 0 <= k < |RelayOf(s, r).queue| ==> QueuedOk(s, r, RelayOf(s, r).queue[k].id, late))
  }

  predicate QueuedOk(s: State, r: Owner, id: EventId, late: set<EventId>) {
    id in RelayOf(s, r).active || id in late || !Holds(s, r, id)
  }

  /** The first `k` rows of a batch are no longer held, except for `late` ids. */
  ghost predicate LetGo(s: State, r: Owner, order: seq<EventId>, k: nat, late: set<EventId>) {
    k <= |order| && forall j :: 0 <= j < k ==> order[j] in late || !Holds(s, r, order[j])
  }

  /** Rows, clock and active set are as they were: only handlers and the log moved on. */
  ghost predicate RowsKept(s: State, s': State, r: Owner) {
    s'.db.rows == s.db.rows && s'.db.now == s.db.now && RelayOf(s', r).active == RelayOf(s, r).active
  }

  lemma HandlingKeepsRows(c: Config, s: State, a: Action, r: Owner)
    requires Actor(a) == Some(r) && (a.Begin? || a.Check? || a.Run? || a.Record? || a.EndTry? || a.Skip?)
    ensures RowsKept(s, Apply(c, s, a), r)
  {
  }

  lemma LetGoStep(s: State, s': State, r: Owner, order: seq<EventId>, k: nat, late: set<EventId>)
    requires LetGo(s, r, order, k, late) && NoneRegained(s, s', r) && k < |order|
    requires order[k] in late || !Holds(s', r, order[k])
    ensures LetGo(s', r, order, k + 1, late)
  {
  }

  /** The queue holds the rows of the batch from position `k` on. */
  ghost predicate Remaining(queue: seq<Work>, order: seq<EventId>, k: nat) {
    && k <= |order| && |queue| == |order| - k
    && forall j :: 0 <= j < |queue| ==> queue[j].id == order[k + j]
  }

  lemma RemainingStep(queue: seq<Work>, order: seq<EventId>, k: nat)
    requires Remaining(queue, order, k) && queue != []
    ensures k < |order| && queue[0].id == order[k] && Remaining(queue[1..], order, k + 1)
  {
  }

  ghost predicate OnlyChanged(before: Stage, after: Stage, i: nat) {
    && before.Handling? && after.Handling? && after.tries == before.tries
    && |after.phases| == |before.phases| && i < |after.phases|
    && forall j :: 0 <= j < |after.phases| && j != i ==> after.phases[j] == before.phases[j]
  }

  lemma SqlRegainsNothing(c: Config, s: State, s': State, actor: Owner, statement: Statement, r: Owner)
    requires SqlBy(c, s, s', actor, statement) && !statement.Insert? && !statement.Record?
    requires statement.Claim? ==> statement.owner != r
    ensures NoneRegained(s, s', r)
  {
  }

  lemma StepRegainsNothing(c: Config, s: State, a: Action, r: Owner)
    requires Inv(c, s) && (a.Poll? ==> a.r != r)
    ensures NoneRegained(s, Apply(c, s, a), r)
  {
    var s' := Apply(c, s, a);
    match a
    case Poll(o, order) => SqlRegainsNothing(c, s, s', o, Claim(o, Elements(order)), r);
    case MarkPublished(o, reply) =>
      if RelayOf(s, o).queue != [] { SqlRegainsNothing(c, s, s', o, UpdateClaimed(o, Head(s, o).id, Publish(s.db.now)), r); }
    case MarkFailed(o, reply) =>
      if RelayOf(s, o).queue != [] { SqlRegainsNothing(c, s, s', o, MarkFailedStatement(c, s, o), r); }
    case Heartbeat(o) => SqlRegainsNothing(c, s, s', o, Renew(o, RelayOf(s, o).active), r);
    case Replay(ids) =>
    case Cleanup(ids, cutoff) =>
    case Tick(elapsed) =>
    case Insert(id, name, at) =>
    case _ => assert LocalTo(s, s', Actor(a).value);
  }

  lemma OthersKeepTheFence(s: State, s': State, r: Owner, late: set<EventId>)
    requires Fenced(s, r, late) && NoneRegained(s, s', r) && RelayOf(s', r) == RelayOf(s, r)
    ensures Fenced(s', r, late)
  {
    forall k | 0 <= k < |RelayOf(s', r).queue| ensures QueuedOk(s', r, RelayOf(s', r).queue[k].id, late) {
      assert QueuedOk(s, r, RelayOf(s, r).queue[k].id, late);
    }
  }

  /** Moving on with the same active set and heartbeat: the queue stays, shrinks or is dropped. */
  lemma MovingOnKeepsTheFence(s: State, s': State, r: Owner, late: set<EventId>)
    requires Fenced(s, r, late) && NoneRegained(s, s', r)
    requires RelayOf(s', r).beat == RelayOf(s, r).beat || RelayOf(s', r).beat.None?
    requires RelayOf(s', r).queue == [] || RelayOf(s', r).queue == RelayOf(s, r).queue
             || (RelayOf(s, r).queue != [] && RelayOf(s', r).queue == RelayOf(s, r).queue[1..])
    requires forall id :: id in RelayOf(s, r).active && id !in RelayOf(s', r).active ==>
               RelayOf(s', r).queue == [] || id in late || !Holds(s', r, id)
    ensures Fenced(s', r, late)
  {
    var queue, queue' := RelayOf(s, r).queue, RelayOf(s', r).queue;
    forall k | 0 <= k < |queue'| ensures QueuedOk(s', r, queue'[k].id, late) {
      var j := if |queue'| == |queue| then k else k + 1;
      assert queue'[k] == queue[j] && QueuedOk(s, r, queue[j].id, late);
    }
  }

  lemma HeartbeatKeepsTheFence(c: Config, s: State, r: Owner, late: set<EventId>)
    requires Fenced(s, r, late) && NoneRegained(s, DoHeartbeat(c, s, r), r)
    ensures Fenced(DoHeartbeat(c, s, r), r, late)
  {
    var s' := DoHeartbeat(c, s, r);
    forall k | 0 <= k < |RelayOf(s', r).queue| ensures QueuedOk(s', r, RelayOf(s', r).queue[k].id, late) {
      assert QueuedOk(s, r, RelayOf(s, r).queue[k].id, late);
    }
  }

  lemma UpdateKeepsTheFence(c: Config, s: State, a: Action, r: Owner, late: set<EventId>)
    requires Inv(c, s) && Fenced(s, r, late) && Actor(a) == Some(r) && (a.MarkPublished? || a.MarkFailed?)
    ensures Fenced(Apply(c, s, a), r, late)
  {
    StepRegainsNothing(c, s, a, r);
    var s' := Apply(c, s, a);
    if RelayOf(s', r).queue != [] && RelayOf(s', r).queue != RelayOf(s, r).queue { assert !Holds(s', r, Head(s, r).id); }
    MovingOnKeepsTheFence(s, s', r, late);
  }

  lemma LocalKeepsTheFence(c: Config, s: State, a: Action, r: Owner, late: set<EventId>)
    requires Inv(c, s) && Fenced(s, r, late) && Actor(a) == Some(r) && Local(a)
    ensures Fenced(Apply(c, s, a), r, late)
  {
    StepRegainsNothing(c, s, a, r);
    MovingOnKeepsTheFence(s, Apply(c, s, a), r, late);
  }

  lemma StepKeepsTheFence(c: Config, s: State, a: Action, r: Owner, late: set<EventId>)
    requires Inv(c, s) && Fenced(s, r, late) && (a.Poll? ==> a.r != r)
    ensures Fenced(Apply(c, s, a), r, late)
  {
    StepRegainsNothing(c, s, a, r);
    if Actor(a) != Some(r) {
      OthersRely(c, s, a, r);
      OthersKeepTheFence(s, Apply(c, s, a), r, late);
    } else if Local(a) {
      LocalKeepsTheFence(c, s, a, r, late);
    } else if a.Heartbeat? {
      HeartbeatKeepsTheFence(c, s, r, late);
    } else {
      UpdateKeepsTheFence(c, s, a, r, late);
    }
  }

  /** A claim is fenced except for what an older heartbeat, still in flight, had found lost. */
  lemma ClaimIsFenced(c: Config, s: State, r: Owner, order: seq<EventId>)
    requires CanPoll(c, s, r, order)
    ensures Fenced(Apply(c, s, Poll(r, order)), r, LostIds(RelayOf(s, r)))
  {
    var s' := Apply(c, s, Poll(r, order));
    forall k | 0 <= k < |RelayOf(s', r).queue| ensures QueuedOk(s', r, RelayOf(s', r).queue[k].id, LostIds(RelayOf(s, r))) {
      assert RelayOf(s', r).queue[k].id == order[k] && order[k] in Elements(order);
    }
  }

  lemma ForeignStep(c: Config, s: State, a: Action, r: Owner, late: set<EventId>)
    requires Inv(c, s) && Foreign(r, a) && Fenced(s, r, late)
    ensures Inv(c, Apply(c, s, a)) && LoopKept(s, Apply(c, s, a), r) && Fenced(Apply(c, s, a), r, late)
  {
    StepKeepsInv(c, s, a);
    StepRegainsNothing(c, s, a, r);
    StepKeepsTheFence(c, s, a, r, late);
    if Actor(a) != Some(r) { OthersRely(c, s, a, r); }
  }

  lemma {:induction false} ForeignRun(c: Config, s: State, gap: seq<Action>, r: Owner, late: set<EventId>)
    requires Inv(c, s) && Fenced(s, r, late) && forall a | a in gap :: Foreign(r, a)
    ensures Inv(c, Runs(c, s, gap)) && LoopKept(s, Runs(c, s, gap), r) && Fenced(Runs(c, s, gap), r, late)
    decreases |gap|
  {
    if gap != [] {
      ForeignStep(c, s, gap[0], r, late);
      ForeignRun(c, Apply(c, s, gap[0]), gap[1..], r, late);
    }
  }

  // ---------- a late heartbeat reply ----------

  /**
   The exception is real, from every state: the reply to a heartbeat of an earlier poll that found
   the row lost makes the loop skip the row although it was claimed afresh and is held.
   */
  lemma LateReplySkipsAHeldRow(c: Config, s: State, r: Owner, id: EventId)
    requires CanPoll(c, s, r, [id]) && c.lease >= 1 && id in LostIds(RelayOf(s, r))
    ensures var s' := Runs(c, s, [Poll(r, [id]), HeartbeatReply(r, true), Skip(r), EndPoll(r)]);
            Holds(s', r, id) && RelayOf(s', r).queue == [] && RelayOf(s', r).active == {}
  {
    var s1 := Apply(c, s, Poll(r, [id]));
    assert id in Elements([id]) && id in [id] && Holds(s1, r, id);
    assert RelayOf(s1, r).active == {id} && RelayOf(s1, r).queue[0].id == id && |RelayOf(s1, r).queue| == 1;
    var s2 := Apply(c, s1, HeartbeatReply(r, true));
    assert id !in RelayOf(s2, r).active && s2.db == s1.db;
    var s3 := Apply(c, s2, Skip(r));
    assert RelayOf(s3, r).queue == [] && s3.db == s1.db;
    RunsFour(c, s, [Poll(r, [id]), HeartbeatReply(r, true), Skip(r), EndPoll(r)]);
  }

  const NO_HANDLERS := Config(10, 60_000, 50, map[])

  /** A heartbeat that found the claimed row lost, with its reply still to come. */
  const LOST_BEAT := Some(Beat({7}, {}))

  /** The event is claimed, its lease runs out, a heartbeat finds it lost, and the poll ends before the reply. */
  function BeatInFlight(): seq<Action> {
    [Action.Insert(7, "Unheard", 0)] + ([Poll(1, [7])] + ([Action.Tick(60_001)] + ([Heartbeat(1)]
      + [Begin(1), EndTry(1), MarkPublished(1, Answered), EndPoll(1)])))
  }

  function Alone(row: Row, now: Time, relays: map<Owner, Relay>): State {
    State(Db(map[7 := row], map[], now), relays, map[7 := "Unheard"], {}, multiset{})
  }

  function AtWork(row: Row, relay: Relay): State { Alone(row, 60_001, map[1 := relay]) }

  const UNHEARD := Work(7, "Unheard", 0)

  lemma UnheardBegins(row: Row)
    ensures Apply(NO_HANDLERS, AtWork(row, Relay([UNHEARD], Idle, {7}, LOST_BEAT)), Begin(1))
         == AtWork(row, Relay([UNHEARD], Handling(1, []), {7}, LOST_BEAT))
  {
    assert AllWaiting(0) == [];
  }

  lemma UnheardSucceeds(row: Row)
    ensures Apply(NO_HANDLERS, AtWork(row, Relay([UNHEARD], Handling(1, []), {7}, LOST_BEAT)), EndTry(1))
         == AtWork(row, Relay([UNHEARD], Publishing, {7}, LOST_BEAT))
  {
  }

  lemma UnheardIsRefused(row: Row)
    requires row.leaseUntil == Some(60_000)
    ensures Apply(NO_HANDLERS, AtWork(row, Relay([UNHEARD], Publishing, {7}, LOST_BEAT)), MarkPublished(1, Answered))
         == AtWork(row, Relay([], Idle, {}, LOST_BEAT))
  {
    var s := AtWork(row, Relay([UNHEARD], Publishing, {7}, LOST_BEAT));
    assert !Accepts(s.db.rows, 7, 1, s.db.now);
    assert {7} - {7} == {} && [UNHEARD][1..] == [];
    assert Advance(s, 1) == AtWork(row, Relay([], Idle, {}, LOST_BEAT));
  }

  lemma PollEndsBeforeTheReply(row: Row)
    requires row.leaseUntil == Some(60_000)
    ensures Runs(NO_HANDLERS, AtWork(row, Relay([UNHEARD], Idle, {7}, LOST_BEAT)),
                 [Begin(1), EndTry(1), MarkPublished(1, Answered), EndPoll(1)])
         == AtWork(row, Relay([], Idle, {}, LOST_BEAT))
  {
    UnheardBegins(row);
    UnheardSucceeds(row);
    UnheardIsRefused(row);
    RunsFour(NO_HANDLERS, AtWork(row, Relay([UNHEARD], Idle, {7}, LOST_BEAT)), [Begin(1), EndTry(1), MarkPublished(1, Answered), EndPoll(1)]);
  }

  lemma UnheardIsClaimed(row: Row)
    requires row == Row("Unheard", 0, 0, None, None, None, None, None)
    ensures Apply(NO_HANDLERS, Alone(row, 0, map[]), Poll(1, [7]))
         == Alone(Lease(row, 0, 60_000).(lockOwner := Some(1)), 0, map[1 := Relay([UNHEARD], Idle, {7}, None)])
  {
    var s := Alone(row, 0, map[]);
    assert Elements([7]) == {7} && CanPoll(NO_HANDLERS, s, 1, [7]) && Snapshot(s.db.rows, [7]) == [UNHEARD];
  }

  lemma BeatFindsItLost(row: Row)
    requires row.leaseUntil == Some(60_000)
    ensures Apply(NO_HANDLERS, AtWork(row, Relay([UNHEARD], Idle, {7}, None)), Heartbeat(1))
         == AtWork(row, Relay([UNHEARD], Idle, {7}, LOST_BEAT))
  {
    var s := AtWork(row, Relay([UNHEARD], Idle, {7}, None));
    assert RenewedIds(s.db.rows, 1, {7}, 60_001) == {};
    assert RenewedRows(s.db.rows, 1, {7}, NO_HANDLERS, 60_001) == s.db.rows;
  }

  /** The exception is reached from an empty outbox. */
  lemma LateReplyIsReachable()
    ensures var s := Runs(NO_HANDLERS, Initial(0), BeatInFlight());
            CanPoll(NO_HANDLERS, s, 1, [7]) && 7 in LostIds(RelayOf(s, 1))
  {
    var row := Row("Unheard", 0, 0, None, None, None, None, None);
    var held := Lease(row, 0, 60_000).(lockOwner := Some(1));
    FourThenRuns(NO_HANDLERS, Initial(0), Action.Insert(7, "Unheard", 0), Poll(1, [7]), Action.Tick(60_001), Heartbeat(1),
                 [Begin(1), EndTry(1), MarkPublished(1, Answered), EndPoll(1)]);
    UnheardIsInserted(row);
    BeatIsSent(row);
    PollEndsBeforeTheReply(held);
    assert Claimable(held, 10, 60_001);
  }

  lemma UnheardIsInserted(row: Row)
    requires row == Row("Unheard", 0, 0, None, None, None, None, None)
    ensures Apply(NO_HANDLERS, Initial(0), Action.Insert(7, "Unheard", 0)) == Alone(row, 0, map[])
  {
  }

  lemma BeatIsSent(row: Row)
    requires row == Row("Unheard", 0, 0, None, None, None, None, None)
    ensures Apply(NO_HANDLERS, Apply(NO_HANDLERS, Apply(NO_HANDLERS, Alone(row, 0, map[]), Poll(1, [7])), Action.Tick(60_001)), Heartbeat(1))
         == AtWork(Lease(row, 0, 60_000).(lockOwner := Some(1)), Relay([UNHEARD], Idle, {7}, LOST_BEAT))
  {
    UnheardIsClaimed(row);
    BeatFindsItLost(Lease(row, 0, 60_000).(lockOwner := Some(1)));
  }

  /** Handler registration: names are appended in subscription order. */
  class EventBus {
    var handlers: map<EventName, seq<HandlerName>>

    constructor()
      ensures handlers == map[]
    {
      handlers := map[];
    }

    method Subscribe(eventName: EventName, handlerName: HandlerName)
      modifies this
      ensures var before := if eventName in old(handlers) then old(handlers)[eventName] else [];
              handlers == old(handlers)[eventName := before + [handlerName]]
    {
      if eventName !in handlers { handlers := handlers[eventName := []]; }
      handlers := handlers[eventName := handlers[eventName] + [handlerName]];
    }
  }

  function PublishedRow(row: Row, now: Time): Row {
    row.(publishedAt := Some(now), lockedAt := None, lockOwner := None, leaseUntil := None)
  }

  /** Exactly these rows are published now; everything else is as it was. */
  ghost predicate PublishedAll(s: State, s': State, ids: set<EventId>) {
    && s'.db.now == s.db.now && s'.db.rows.Keys == s.db.rows.Keys
    && forall id :: id in s.db.rows ==> s'.db.rows[id] == if id in ids then PublishedRow(s.db.rows[id], s.db.now) else s.db.rows[id]
  }

  /** The rest of the batch is active and held. */
  ghost predicate Ready(s: State, r: Owner, order: seq<EventId>, k: nat) {
    forall j :: k <= j < |order| ==> order[j] in RelayOf(s, r).active && Holds(s, r, order[j])
  }

  lemma PublishedOneMore(s0: State, s: State, s': State, r: Owner, order: seq<EventId>, k: nat)
    requires k < |order| && Distinct(order) && Ready(s, r, order, k) && PublishedAll(s0, s, Elements(order[..k]))
    requires s'.db.now == s.db.now && s'.db.rows == s.db.rows[order[k] := PublishedRow(s.db.rows[order[k]], s.db.now)]
    requires RelayOf(s', r).active == RelayOf(s, r).active - {order[k]}
    ensures PublishedAll(s0, s', Elements(order[..k + 1])) && Ready(s', r, order, k + 1)
  {
    assert Elements(order[..k + 1]) == Elements(order[..k]) + {order[k]} by {
      assert order[..k + 1] == order[..k] + [order[k]];
    }
    assert order[k] !in Elements(order[..k]);
  }

  /** Nothing has gone wrong with the handler so far. */
  predicate Well(phase: Phase) { phase in {Waiting, Running, Recording(true), Settled(true)} }

  predicate AllWell(phases: seq<Phase>) { forall j | 0 <= j < |phases| :: Well(phases[j]) }

  function Left(phase: Phase): nat {
    match phase
    case Waiting => 3
    case Running => 2
    case Recording(_) => 1
    case Settled(_) => 0
  }

  /** Awaits the handlers of one call still have ahead of them, at most. */
  function StepsLeft(phases: seq<Phase>): nat {
    if phases == [] then 0 else StepsLeft(phases[..|phases| - 1]) + Left(phases[|phases| - 1])
  }

  lemma {:induction false} StepsUpdate(phases: seq<Phase>, i: nat, phase: Phase)
    requires i < |phases|
    ensures StepsLeft(phases[i := phase]) == StepsLeft(phases) - Left(phases[i]) + Left(phase)
  {
    var n := |phases| - 1;
    if i < n {
      StepsUpdate(phases[..n], i, phase);
      assert phases[i := phase][..n] == phases[..n][i := phase];
    } else {
      assert phases[i := phase][..n] == phases[..n];
    }
  }

  lemma StepsFall(before: seq<Phase>, after: seq<Phase>, i: nat)
    requires i < |before| == |after| && (forall j :: 0 <= j < |after| && j != i ==> after[j] == before[j])
    requires Left(after[i]) < Left(before[i])
    ensures StepsLeft(after) < StepsLeft(before)
  {
    assert after == before[i := after[i]];
    StepsUpdate(before, i, after[i]);
  }

  /** The handler that takes the next step: any unsettled one, as the schedule has it. */
  function Due(phases: seq<Phase>, pick: nat): (i: nat)
    requires !AllSettled(phases)
    ensures i < |phases| && !phases[i].Settled? && (pick < |phases| && !phases[pick].Settled? ==> i == pick)
  {
    if pick < |phases| && !phases[pick].Settled? then pick
    else if phases[0].Settled? then
      assert forall j :: 0 <= j < |phases[1..]| ==> phases[1..][j] == phases[j + 1];
      1 + Due(phases[1..], |phases|)
    else 0
  }

  class OutboxRelay {
    const owner: Owner
    const c: Config
    const env: nat -> seq<Action>
    const oracle: nat -> Answer
    const schedule: nat -> nat
    var running: bool
    var awaits: nat
    var state: State
    ghost const initial: State
    ghost var trace: seq<Action>
    ghost var late: set<EventId>

    constructor(owner: Owner, c: Config, env: nat -> seq<Action>, oracle: nat -> Answer, schedule: nat -> nat, state: State)
      requires Inv(c, state) && forall k: nat :: forall a | a in env(k) :: Foreign(owner, a)
      ensures Valid() && this.owner == owner && this.c == c && this.env == env && this.oracle == oracle
      ensures this.schedule == schedule && this.state == initial == state && !running && awaits == 0 && trace == []
    {
      this.owner, this.c, this.env, this.oracle, this.schedule := owner, c, env, oracle, schedule;
      this.state, running, awaits, initial, trace := state, false, 0, state, [];
      late := LostIds(RelayOf(state, owner)) + (set w | w in RelayOf(state, owner).queue :: w.id);
      new;
      forall k | 0 <= k < |Me().queue| ensures Me().queue[k].id in late { assert Me().queue[k] in Me().queue; }
    }

    /**
     Whatever this program and the rest of the system did so far is a run of the protocol, and only
     `late` ids can be held without being active: those that a heartbeat older than the last claim lost.
     */
    ghost predicate Valid()
      reads this
    {
      && Inv(c, state) && state == Runs(c, initial, trace) && Fenced(state, owner, late)
      && forall k: nat :: forall a | a in env(k) :: Foreign(owner, a)
    }

    function Me(): Relay reads this { RelayOf(state, owner) }

    /** Nobody else acts, the handlers succeed, and every reply arrives. */
    ghost predicate Smooth()
      reads this
    {
      forall k: nat :: env(k) == [] && oracle(k).decodable && oracle(k).answered && oracle(k).success && oracle(k).reply == Answered
    }

    /** The rest of the system runs until the awaited answer arrives. */
    method Await() returns (answer: Answer)
      requires Valid()
      modifies this`state, this`awaits, this`trace
      ensures Valid() && state == Runs(c, old(state), env(old(awaits))) && LoopKept(old(state), state, owner)
      ensures answer == oracle(old(awaits)) && awaits == old(awaits) + 1
    {
      ForeignRun(c, state, env(awaits), owner, late);
      RunsAppend(c, initial, trace, env(awaits));
      answer := oracle(awaits);
      var gap := env(awaits);
      trace := trace + gap;
      state := Runs(c, state, gap);
      awaits := awaits + 1;
    }

    /** One uninterrupted step of this relay. */
    method Do(a: Action)
      requires Valid() && !a.Poll?
      modifies this`state, this`trace
      ensures Valid() && state == Apply(c, old(state), a) && NoneRegained(old(state), state, owner)
    {
      StepKeepsInv(c, state, a);
      StepRegainsNothing(c, state, a, owner);
      StepKeepsTheFence(c, state, a, owner, late);
      RunsAppend(c, initial, trace, [a]);
      trace := trace + [a];
      state := Apply(c, state, a);
    }

    predicate Handles(i: nat)
      reads this
    {
      Me().queue != [] && Me().stage.Handling? && i < |Me().stage.phases| == |Hands(c, Me().queue[0])|
    }

    lemma CheckMovesOn(s: State, i: nat, answered: bool)
      requires RelayOf(s, owner).queue != [] && RelayOf(s, owner).stage.Handling?
      requires i < |RelayOf(s, owner).stage.phases| == |Hands(c, Head(s, owner))| && RelayOf(s, owner).stage.phases[i] == Waiting
      ensures var relay, relay' := RelayOf(s, owner), RelayOf(Apply(c, s, Check(owner, i, answered)), owner);
              && relay'.queue == relay.queue && OnlyChanged(relay.stage, relay'.stage, i)
              && (relay'.stage.phases[i] == Running || relay'.stage.phases[i].Settled?)
              && (answered ==> relay'.stage.phases[i] in {Running, Settled(true)})
    {
      assert InPhase(c, s, owner, i, Waiting);
    }

    /** The log lookup skips a handler that is done and fails one whose lookup fails. */
    method Look(i: nat)
      requires Valid() && Handles(i) && Me().stage.phases[i] == Waiting
      modifies this`state, this`awaits, this`trace
      ensures Valid() && NoneRegained(old(state), state, owner) && Me().queue == old(Me().queue)
      ensures OnlyChanged(old(Me().stage), Me().stage, i) && (Me().stage.phases[i] == Running || Me().stage.phases[i].Settled?)
      ensures Smooth() ==> RowsKept(old(state), state, owner) && Me().stage.phases[i] in {Running, Settled(true)}
      ensures awaits == old(awaits) + 1
    {
      var answer := Await();
      CheckMovesOn(state, i, answer.answered);
      HandlingKeepsRows(c, state, Check(owner, i, answer.answered), owner);
      Do(Check(owner, i, answer.answered));
    }

    method Execute(i: nat)
      requires Valid() && Handles(i) && Me().stage.phases[i] == Running
      modifies this`state, this`awaits, this`trace
      ensures Valid() && NoneRegained(old(state), state, owner) && Me().queue == old(Me().queue)
      ensures OnlyChanged(old(Me().stage), Me().stage, i) && Me().stage.phases[i].Recording?
      ensures Smooth() ==> RowsKept(old(state), state, owner) && Me().stage.phases[i] == Recording(true)
      ensures awaits == old(awaits) + 1
    {
      var answer := Await();
      HandlingKeepsRows(c, state, Run(owner, i, answer.success), owner);
      Do(Run(owner, i, answer.success));
    }

    lemma RecordSettles(s: State, i: nat, reply: Reply)
      requires RelayOf(s, owner).queue != [] && RelayOf(s, owner).stage.Handling?
      requires i < |RelayOf(s, owner).stage.phases| == |Hands(c, Head(s, owner))| && RelayOf(s, owner).stage.phases[i].Recording?
      ensures var relay, relay' := RelayOf(s, owner), RelayOf(Apply(c, s, Action.Record(owner, i, reply)), owner);
              relay'.queue == relay.queue && OnlyChanged(relay.stage, relay'.stage, i) && relay'.stage.phases[i].Settled?
              && (reply == Answered && Head(s, owner).id in s.db.rows ==> relay'.stage.phases[i].success == relay.stage.phases[i].success)
    {
      assert InPhase(c, s, owner, i, RelayOf(s, owner).stage.phases[i]);
    }

    method Store(i: nat)
      requires Valid() && Handles(i) && Me().stage.phases[i].Recording?
      modifies this`state, this`awaits, this`trace
      ensures Valid() && NoneRegained(old(state), state, owner) && Me().queue == old(Me().queue)
      ensures OnlyChanged(old(Me().stage), Me().stage, i) && Me().stage.phases[i].Settled?
      ensures Smooth() && old(Me().queue[0].id in state.db.rows && Me().stage.phases[i] == Recording(true)) ==>
                RowsKept(old(state), state, owner) && Me().stage.phases[i] == Settled(true)
      ensures awaits == old(awaits) + 1
    {
      var answer := Await();
      RecordSettles(state, i, answer.reply);
      HandlingKeepsRows(c, state, Action.Record(owner, i, answer.reply), owner);
      Do(Action.Record(owner, i, answer.reply));
    }

    /** One handler takes its next step: its look-up, its body, or the record of its result. */
    method TakeStep(i: nat)
      requires Valid() && Handles(i) && !Me().stage.phases[i].Settled?
      modifies this`state, this`awaits, this`trace
      ensures Valid() && NoneRegained(old(state), state, owner) && Me().queue == old(Me().queue) && awaits == old(awaits) + 1
      ensures OnlyChanged(old(Me().stage), Me().stage, i) && Left(Me().stage.phases[i]) < Left(old(Me().stage.phases[i]))
      ensures Smooth() && old(Me().queue[0].id in state.db.rows && Well(Me().stage.phases[i])) ==>
                RowsKept(old(state), state, owner) && Well(Me().stage.phases[i])
    {
      match Me().stage.phases[i]
      case Waiting => Look(i);
      case Running => Execute(i);
      case Recording(_) => Store(i);
    }

    /** All handlers are under way at once: whichever of them is due next takes its next step. */
    method RunHandlers()
      requires Valid() && Me().queue != [] && Me().stage.Handling?
      requires Me().stage.phases == AllWaiting(|Hands(c, Me().queue[0])|)
      modifies this`state, this`awaits, this`trace
      ensures Valid() && NoneRegained(old(state), state, owner) && Me().queue == old(Me().queue)
      ensures Me().stage.Handling? && Me().stage.tries == old(Me().stage.tries) && AllSettled(Me().stage.phases)
      ensures Smooth() && old(Me().queue[0].id in state.db.rows) ==> RowsKept(old(state), state, owner) && AllSucceeded(Me().stage.phases)
      ensures awaits >= old(awaits)
    {
      while !AllSettled(Me().stage.phases)
        invariant Valid() && NoneRegained(old(state), state, owner) && Me().queue == old(Me().queue)
        invariant Me().stage.Handling? && Me().stage.tries == old(Me().stage.tries)
        invariant |Me().stage.phases| == |Hands(c, Me().queue[0])| && awaits >= old(awaits)
        invariant Smooth() && old(Me().queue[0].id in state.db.rows) ==> RowsKept(old(state), state, owner) && AllWell(Me().stage.phases)
        decreases StepsLeft(Me().stage.phases)
      {
        ghost var before := Me().stage.phases;
        var i := Due(Me().stage.phases, schedule(awaits));
        TakeStep(i);
        StepsFall(before, Me().stage.phases, i);
      }
    }

    lemma TryEnds(s: State)
      requires RelayOf(s, owner).queue != [] && RelayOf(s, owner).stage.Handling? && AllSettled(RelayOf(s, owner).stage.phases)
      ensures var relay, relay' := RelayOf(s, owner), RelayOf(Apply(c, s, EndTry(owner)), owner);
              && relay'.queue == relay.queue
              && relay'.stage == if AllSucceeded(relay.stage.phases) then Publishing else AfterFailedTry(c, relay.queue[0], relay.stage.tries)
    {
    }

    /** `EventBus.publish`: it succeeds only if every handler settled successfully. */
    method PublishEvent() returns (success: bool)
      requires Valid() && Me().queue != [] && Me().stage.Handling?
      requires Me().stage.phases == AllWaiting(|Hands(c, Me().queue[0])|)
      modifies this`state, this`awaits, this`trace
      ensures Valid() && NoneRegained(old(state), state, owner) && Me().queue == old(Me().queue)
      ensures Me().stage == if success then Publishing else AfterFailedTry(c, old(Me().queue[0]), old(Me().stage.tries))
      ensures success ==> AllHandled(c, state, Me().queue[0].id, Me().queue[0].name)
      ensures Smooth() && old(Me().queue[0].id in state.db.rows) ==> success && RowsKept(old(state), state, owner)
      ensures awaits > old(awaits)
    {
      var answer := Await();
      if !answer.decodable {
        Do(Undecodable(owner));
        return false;
      }
      RunHandlers();
      success := AllSucceeded(Me().stage.phases);
      TryEnds(state);
      HandlingKeepsRows(c, state, EndTry(owner), owner);
      Do(EndTry(owner));
      assert RelayOk(c, state, owner);
    }

    method BeginRow()
      requires Valid() && Me().queue != [] && Me().stage.Idle? && Me().queue[0].id in Me().active
      modifies this`state, this`trace
      ensures Valid() && NoneRegained(old(state), state, owner) && Me().queue == old(Me().queue)
      ensures Me().stage == Handling(1, AllWaiting(|Hands(c, Me().queue[0])|)) && RowsKept(old(state), state, owner)
    {
      HandlingKeepsRows(c, state, Begin(owner), owner);
      Do(Begin(owner));
    }

    lemma PublicationIsMarked(s: State, reply: Reply)
      requires RelayOf(s, owner).queue != [] && RelayOf(s, owner).stage.Publishing?
      ensures var relay, s' := RelayOf(s, owner), DoMarkPublished(c, s, owner, reply);
              && (reply == Answered ==> RelayOf(s', owner).stage.Idle? && RelayOf(s', owner).queue == relay.queue[1..]
                                        && !Holds(s', owner, relay.queue[0].id))
              && (reply != Answered ==> RelayOf(s', owner).stage.Failing? && RelayOf(s', owner).queue == relay.queue)
              && (reply == Answered ==> PublishedIn(s, s', relay.queue[0].id) && RelayOf(s', owner).active == relay.active - {relay.queue[0].id})
    {
    }

    /** The row is published now and released, if it was held; no other row changes. */
    ghost predicate PublishedIn(s: State, s': State, id: EventId) {
      && s'.db.now == s.db.now
      && s'.db.rows == if !Holds(s, owner, id) then s.db.rows else s.db.rows[id := PublishedRow(s.db.rows[id], s.db.now)]
    }

    /** The row has one attempt more: it waits for its back-off, or is dead-lettered at the limit. */
    ghost predicate FailedIn(s: State, s': State, id: EventId) {
      s'.db.rows == if !Holds(s, owner, id) then s.db.rows
                    else
                      var row := s.db.rows[id].(attempts := s.db.rows[id].attempts + 1, lockedAt := None, lockOwner := None);
                      var delay := 1_000 * Pow2(s.db.rows[id].attempts);
                      s.db.rows[id := if row.attempts >= c.maxAttempts then row.(leaseUntil := None, deadLetteredAt := Some(s.db.now))
                                      else row.(leaseUntil := Some(s.db.now + (if delay < 60_000 then delay else 60_000)), deadLetteredAt := None)]
    }

    /** What the relay's own update meets. */
    ghost function AfterAwait(): State
      reads this
    {
      Runs(c, state, env(awaits))
    }

    /** An accepted or refused update both mean the row is no longer held. */
    method MarkRowPublished() returns (answered: bool)
      requires Valid() && Me().queue != [] && Me().stage.Publishing?
      modifies this`state, this`awaits, this`trace
      ensures Valid() && NoneRegained(old(state), state, owner)
      ensures answered ==> Me().stage.Idle? && Me().queue == old(Me().queue)[1..] && !Holds(state, owner, old(Me().queue[0].id))
      ensures !answered ==> Me().stage.Failing? && Me().queue == old(Me().queue)
      ensures answered ==> PublishedIn(old(AfterAwait()), state, old(Me().queue[0].id))
                           && Me().active == RelayOf(old(AfterAwait()), owner).active - {old(Me().queue[0].id)}
      ensures Smooth() ==> answered
    {
      var answer := Await();
      PublicationIsMarked(state, answer.reply);
      Do(MarkPublished(owner, answer.reply));
      answered := answer.reply == Answered;
    }

    lemma FailureIsMarked(s: State, reply: Reply)
      requires RelayOf(s, owner).queue != [] && RelayOf(s, owner).stage.Failing?
      ensures var w, s' := Head(s, owner), DoMarkFailed(c, s, owner, reply);
              && RelayOf(s', owner).stage.Idle?
              && (reply == Answered ==> RelayOf(s', owner).queue == RelayOf(s, owner).queue[1..] && !Holds(s', owner, w.id))
              && (reply != Answered ==> RelayOf(s', owner).queue == [])
              && (reply == Answered && Inv(c, s) ==> FailedIn(s, s', w.id))
    {
      if Inv(c, s) { assert RelayOk(c, s, owner) && WorkOk(s, owner, RelayOf(s, owner).queue[0]); }
    }

    method MarkRowFailed() returns (answered: bool)
      requires Valid() && Me().queue != [] && Me().stage.Failing?
      modifies this`state, this`awaits, this`trace
      ensures Valid() && NoneRegained(old(state), state, owner) && Me().stage.Idle?
      ensures answered ==> Me().queue == old(Me().queue)[1..] && !Holds(state, owner, old(Me().queue[0].id))
      ensures !answered ==> Me().queue == []
      ensures answered ==> FailedIn(old(AfterAwait()), state, old(Me().queue[0].id))
    {
      var answer := Await();
      FailureIsMarked(state, answer.reply);
      Do(MarkFailed(owner, answer.reply));
      answered := answer.reply == Answered;
    }

    /** One call and two retries inside the claim: it is given up only after three calls. */
    method PublishWithRetry() returns (success: bool)
      requires Valid() && Me().queue != [] && Me().stage == Handling(1, AllWaiting(|Hands(c, Me().queue[0])|))
      modifies this`state, this`awaits, this`trace
      ensures Valid() && NoneRegained(old(state), state, owner) && Me().queue == old(Me().queue)
      ensures Me().stage == if success then Publishing else Failing
      ensures Smooth() && old(Me().queue[0].id in state.db.rows) ==> success && RowsKept(old(state), state, owner)
      ensures !success ==> awaits >= old(awaits) + 3
    {
      var tries := 0;
      success := false;
      while tries < MAX_TRIES && !success
        invariant 0 <= tries <= MAX_TRIES && Valid() && Me().queue == old(Me().queue)
        invariant Me().stage == if success then Publishing
                                else if tries < MAX_TRIES then Handling(tries + 1, AllWaiting(|Hands(c, Me().queue[0])|))
                                else Failing
        invariant NoneRegained(old(state), state, owner) && awaits >= old(awaits) + tries
        invariant Smooth() && old(Me().queue[0].id in state.db.rows) ==> RowsKept(old(state), state, owner) && (tries > 0 ==> success)
      {
        success := PublishEvent();
        tries := tries + 1;
      }
    }

    /**
     Up to three `publish` calls, then one update.  Whatever the interleaving, the loop moves on
     and the relay no longer holds the row; only a lost reply to the failure update ends the poll.
     */
    method PublishRow() returns (finished: bool)
      requires Valid() && Me().queue != [] && Me().stage.Idle? && Me().queue[0].id in Me().active
      modifies this`state, this`awaits, this`trace
      ensures Valid() && NoneRegained(old(state), state, owner) && Me().stage.Idle?
      ensures Me().queue == if finished then old(Me().queue)[1..] else []
      ensures finished ==> !Holds(state, owner, old(Me().queue[0].id))
      ensures Smooth() && old(Holds(state, owner, Me().queue[0].id)) ==>
                && finished && PublishedIn(old(state), state, old(Me().queue[0].id))
                && Me().active == old(Me().active) - {old(Me().queue[0].id)}
    {
      BeginRow();
      var success := PublishWithRetry();
      if success {
        finished := MarkRowPublished();
        if finished { return; }
      }
      finished := MarkRowFailed();
    }

    method ClaimRows(order: seq<EventId>)
      requires Valid() && CanPoll(c, state, owner, order)
      modifies this`state, this`trace, this`late
      ensures Valid() && Me().stage.Idle? && late == LostIds(RelayOf(old(state), owner))
      ensures Remaining(Me().queue, order, 0)
      ensures c.lease > 0 ==> Ready(state, owner, order, 0)
      ensures state.db.now == old(state).db.now && state.db.rows.Keys == old(state).db.rows.Keys
      ensures forall id :: id in state.db.rows ==> PublishedRow(state.db.rows[id], state.db.now) == PublishedRow(old(state).db.rows[id], state.db.now)
                                                   && (id !in order ==> state.db.rows[id] == old(state).db.rows[id])
    {
      StepKeepsInv(c, state, Poll(owner, order));
      ClaimIsFenced(c, state, owner, order);
      RunsAppend(c, initial, trace, [Poll(owner, order)]);
      trace := trace + [Poll(owner, order)];
      late := LostIds(Me());
      state := Apply(c, state, Poll(owner, order));
    }

    method SkipRow()
      requires Valid() && Me().queue != [] && Me().stage.Idle? && Me().queue[0].id !in Me().active
      modifies this`state, this`trace
      ensures Valid() && NoneRegained(old(state), state, owner) && Me().stage.Idle? && Me().queue == old(Me().queue)[1..]
    {
      Do(Skip(owner));
    }

    method FinishPoll()
      requires Valid() && Me().queue == [] && Me().stage.Idle?
      modifies this`state, this`trace
      ensures Valid() && NoneRegained(old(state), state, owner)
      ensures Me().queue == [] && Me().stage.Idle? && Me().active == {} && state.db == old(state.db)
    {
      Do(EndPoll(owner));
    }

    /** A row that is no longer active is skipped, and it is not held unless it is a `late` one. */
    method NextRow() returns (finished: bool)
      requires Valid() && Me().queue != [] && Me().stage.Idle?
      modifies this`state, this`awaits, this`trace
      ensures Valid() && NoneRegained(old(state), state, owner) && Me().stage.Idle?
      ensures Me().queue == if finished then old(Me().queue)[1..] else []
      ensures finished ==> old(Me().queue[0].id) in late || !Holds(state, owner, old(Me().queue[0].id))
      ensures Smooth() && old(Me().queue[0].id in Me().active && Holds(state, owner, Me().queue[0].id)) ==>
                && finished && PublishedIn(old(state), state, old(Me().queue[0].id))
                && Me().active == old(Me().active) - {old(Me().queue[0].id)}
    {
      assert QueuedOk(state, owner, Me().queue[0].id, late);
      if Me().queue[0].id !in Me().active {
        SkipRow();
        finished := true;
      } else {
        finished := PublishRow();
      }
    }

    /** Work through the claimed rows in order. */
    method WorkThrough(ghost order: seq<EventId>) returns (finished: bool)
      requires Valid() && Me().stage.Idle? && Remaining(Me().queue, order, 0)
      modifies this`state, this`awaits, this`trace
      ensures Valid() && Me().queue == [] && Me().stage.Idle?
      ensures finished ==> forall id :: id in order ==> id in late || !Holds(state, owner, id)
      ensures Smooth() && Distinct(order) && Ready(old(state), owner, order, 0) ==> finished && PublishedAll(old(state), state, Elements(order))
    {
      ghost var k := 0;
      while Me().queue != []
        invariant Valid() && Me().stage.Idle? && k <= |order| && Remaining(Me().queue, order, k)
        invariant LetGo(state, owner, order, k, late)
        invariant Smooth() && Distinct(order) && Ready(old(state), owner, order, 0) ==>
                    PublishedAll(old(state), state, Elements(order[..k])) && Ready(state, owner, order, k)
        decreases |Me().queue|
      {
        ghost var before := state;
        RemainingStep(Me().queue, order, k);
        finished := NextRow();
        if !finished { return; }
        if Smooth() && Distinct(order) && Ready(old(state), owner, order, 0) {
          PublishedOneMore(old(state), before, state, owner, order, k);
        }
        LetGoStep(before, state, owner, order, k, late);
        k := k + 1;
      }
      finished := true;
    }

    /** Claiming touches only what publishing overwrites. */
    lemma ClaimedThenPublished(s0: State, s: State, s': State, order: seq<EventId>)
      requires s.db.now == s0.db.now && s.db.rows.Keys == s0.db.rows.Keys && PublishedAll(s, s', Elements(order))
      requires forall id :: id in s.db.rows ==> PublishedRow(s.db.rows[id], s.db.now) == PublishedRow(s0.db.rows[id], s.db.now)
                                                && (id !in order ==> s.db.rows[id] == s0.db.rows[id])
      ensures PublishedAll(s0, s', Elements(order))
    {
    }

    method WorkBatch(order: seq<EventId>) returns (finished: bool)
      requires Valid() && CanPoll(c, state, owner, order)
      modifies this`state, this`awaits, this`trace, this`late
      ensures Valid() && Me().queue == [] && Me().stage.Idle? && late == LostIds(RelayOf(old(state), owner))
      ensures finished ==> Me().active == {} && forall id :: id in order ==> id in late || !Holds(state, owner, id)
      ensures Smooth() && c.lease > 0 ==> finished && PublishedAll(old(state), state, Elements(order))
    {
      ClaimRows(order);
      ghost var claimed := state;
      finished := WorkThrough(order);
      if Smooth() && c.lease > 0 { ClaimedThenPublished(old(state), claimed, state, order); }
      if finished { FinishPoll(); }
    }

    /** The state that the claim meets after its await. */
    ghost function AtClaim(): State
      reads this
    {
      Runs(c, state, env(awaits))
    }

    /**
     Claim a batch and work through it.  A second call while one is running does nothing.  A
     finished poll holds none of its claimed rows, except ones that a heartbeat of an earlier poll,
     still in flight at the claim, had found lost; without such a heartbeat it holds none at all.
     When nobody interferes, handlers succeed and replies arrive, exactly the claimed rows are published.
     */
    method PollOnce() returns (ghost claimed: seq<EventId>, finished: bool)
      requires Valid() && (!running ==> Me().queue == [] && Me().stage.Idle?)
      modifies this
      ensures Valid()
      ensures old(running) ==> running && state == old(state) && !finished
      ensures !old(running) ==> !running && Me().queue == [] && Me().stage.Idle?
      ensures finished ==>
                && Me().active == {}
                && (forall id :: id in claimed && Holds(state, owner, id) ==> id in LostIds(RelayOf(old(AtClaim()), owner)))
                && (RelayOf(old(AtClaim()), owner).beat.None? ==> forall id :: id in claimed ==> !Holds(state, owner, id))
      ensures old(!running && Smooth() && c.lease > 0 && CanPoll(c, state, owner, oracle(awaits).order)) ==>
                && finished && claimed == oracle(old(awaits)).order
                && PublishedAll(old(state), state, Elements(claimed))
    {
      claimed, finished := [], false;
      if running { return; }
      running := true;
      var answer := Await();
      if CanPoll(c, state, owner, answer.order) {
        claimed := answer.order;
        finished := WorkBatch(answer.order);
      }
      running := false;
    }
  }
}
