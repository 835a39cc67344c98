/**
 Any number of outbox relays, operators and a clock, interleaved at every point where the
 relay awaits a statement or a handler.  A run is any sequence of actions; a disabled action
 changes nothing, so no run is left out.
 */
module OutboxProtocol {
  import opened Wrappers
  import opened OutboxTable

  /** One row as returned by the claim: the attempt count is the one captured then. */
  datatype Work = Work(id: EventId, name: EventName, attempts: nat)

  /** One handler inside one `publish` call. */
  datatype Phase = Waiting | Running | Recording(success: bool) | Settled(success: bool)

  /** Where the relay is with the row at the head of its queue. */
  datatype Stage = Idle | Handling(tries: nat, phases: seq<Phase>) | Publishing | Failing

  /** `pollOnce` in flight: rows still to do, ids the heartbeat covers, a heartbeat in flight. */
  datatype Relay = Relay(queue: seq<Work>, stage: Stage, active: set<EventId>, beat: Option<Beat>)
  datatype Beat = Beat(sent: set<EventId>, renewed: set<EventId>)

  const FRESH := Relay([], Idle, {}, None)

  /** How the awaiting relay learns of its own write. */
  datatype Reply = Answered | LostAfterCommit | LostBeforeCommit

  /**
   `names`, `published` and `bodies` are history: every event ever inserted, every event ever
   published, and how often each handler body completed successfully for each event.
   */
  datatype State = State(
    db: Db,
    relays: map<Owner, Relay>,
    names: map<EventId, EventName>,
    published: set<EventId>,
    bodies: multiset<(EventId, HandlerName)>)

  datatype Action =
    | Insert(id: EventId, name: EventName, occurredAt: Time)
    | Poll(r: Owner, order: seq<EventId>)
    | Skip(r: Owner)
    | Begin(r: Owner)
    | Undecodable(r: Owner)
    | Check(r: Owner, i: nat, answered: bool)
    | Run(r: Owner, i: nat, success: bool)
    | Record(r: Owner, i: nat, reply: Reply)
    | EndTry(r: Owner)
    | MarkPublished(r: Owner, reply: Reply)
    | MarkFailed(r: Owner, reply: Reply)
    | EndPoll(r: Owner)
    | Heartbeat(r: Owner)
    | HeartbeatReply(r: Owner, answered: bool)
    | Crash(r: Owner)
    | Replay(ids: set<EventId>)
    | Cleanup(ids: set<EventId>, cutoff: Time)
    | Tick(elapsed: nat)

  function RelayOf(s: State, r: Owner): Relay {
    if r in s.relays then s.relays[r] else FRESH
  }

  function SetRelay(s: State, r: Owner, relay: Relay): State {
    s.(relays := s.relays[r := relay])
  }

  function Head(s: State, r: Owner): Work
    requires RelayOf(s, r).queue != []
  {
    RelayOf(s, r).queue[0]
  }

  function Hands(c: Config, w: Work): seq<HandlerName> { c.Handlers(w.name) }

  function AllWaiting(n: nat): seq<Phase> { seq(n, _ => Waiting) }

  predicate AllSettled(phases: seq<Phase>) {
    forall i | 0 <= i < |phases| :: phases[i].Settled?
  }

  predicate AllSucceeded(phases: seq<Phase>) {
    forall i | 0 <= i < |phases| :: phases[i] == Settled(true)
  }

  /** A failed `publish` call: try again inside the claim, or give up and record the failure. */
  function AfterFailedTry(c: Config, w: Work, tries: nat): Stage {
    if tries < MAX_TRIES then Handling(tries + 1, AllWaiting(|Hands(c, w)|)) else Failing
  }

  function Elements(ids: seq<EventId>): set<EventId> { set id | id in ids }

  predicate CanPoll(c: Config, s: State, r: Owner, order: seq<EventId>) {
    && RelayOf(s, r).queue == [] && RelayOf(s, r).stage.Idle?
    && |order| <= c.batchSize && Distinct(order)
    && forall id | id in order :: id in s.db.rows && Claimable(s.db.rows[id], c.maxAttempts, s.db.now)
  }

  function Snapshot(rows: Table, order: seq<EventId>): seq<Work>
    requires forall id | id in order :: id in rows
  {
    seq(|order|, k requires 0 <= k < |order| => Work(order[k], rows[order[k]].eventName, rows[order[k]].attempts))
  }

  predicate InPhase(c: Config, s: State, r: Owner, i: nat, phase: Phase) {
    && RelayOf(s, r).queue != []
    && RelayOf(s, r).stage.Handling?
    && i < |RelayOf(s, r).stage.phases|
    && i < |Hands(c, Head(s, r))|
    && RelayOf(s, r).stage.phases[i] == phase
  }

  function SetPhase(s: State, r: Owner, i: nat, phase: Phase): State
    requires RelayOf(s, r).stage.Handling? && i < |RelayOf(s, r).stage.phases|
  {
    var relay := RelayOf(s, r);
    SetRelay(s, r, relay.(stage := relay.stage.(phases := relay.stage.phases[i := phase])))
  }

  /** `updateClaimedRow` returned: the id leaves the active set and the loop moves on. */
  function Advance(s: State, r: Owner): State
    requires RelayOf(s, r).queue != []
  {
    var relay := RelayOf(s, r);
    SetRelay(s, r, relay.(queue := relay.queue[1..], stage := Idle, active := relay.active - {relay.queue[0].id}))
  }

  /** Bookkeeping and handler actions touch no row, no clock and no other relay. */
  predicate LocalTo(s: State, s': State, r: Owner) {
    && s'.db.rows == s.db.rows && s'.db.now == s.db.now
    && s'.names == s.names && s'.published == s.published && s.bodies <= s'.bodies
    && (s'.relays == s.relays || s'.relays == s.relays[r := RelayOf(s', r)])
  }

  /** The relay ran at most this one statement; the rest of the system is as it was. */
  predicate SqlBy(c: Config, s: State, s': State, r: Owner, statement: Statement) {
    && (s'.db == s.db || s'.db == Exec(c, s.db, statement))
    && s'.names == s.names && s'.bodies == s.bodies
    && (s'.relays == s.relays || s'.relays == s.relays[r := RelayOf(s', r)])
  }

  function Sql(c: Config, s: State, statement: Statement): State {
    s.(db := Exec(c, s.db, statement))
  }

  function DoInsert(c: Config, s: State, id: EventId, name: EventName, occurredAt: Time): State {
    if id in s.names then s
    else Sql(c, s, Statement.Insert(id, name, occurredAt)).(names := s.names[id := name])
  }

  function DoPoll(c: Config, s: State, r: Owner, order: seq<EventId>): (s': State)
    ensures SqlBy(c, s, s', r, Claim(r, Elements(order)))
  {
    if !CanPoll(c, s, r, order) then s
    else
      SetRelay(Sql(c, s, Claim(r, Elements(order))), r,
               RelayOf(s, r).(queue := Snapshot(s.db.rows, order),
                              active := if order == [] then RelayOf(s, r).active else Elements(order)))
  }

  function DoSkip(s: State, r: Owner): (s': State)
    ensures LocalTo(s, s', r)
  {
    var relay := RelayOf(s, r);
    if relay.queue == [] || !relay.stage.Idle? || relay.queue[0].id in relay.active then s
    else SetRelay(s, r, relay.(queue := relay.queue[1..]))
  }

  function DoBegin(c: Config, s: State, r: Owner): (s': State)
    ensures LocalTo(s, s', r)
  {
    var relay := RelayOf(s, r);
    if relay.queue == [] || !relay.stage.Idle? || relay.queue[0].id !in relay.active then s
    else SetRelay(s, r, relay.(stage := Handling(1, AllWaiting(|Hands(c, relay.queue[0])|))))
  }

  /** The payload fails validation before any handler starts. */
  function DoUndecodable(c: Config, s: State, r: Owner): (s': State)
    ensures LocalTo(s, s', r)
  {
    var relay := RelayOf(s, r);
    if relay.queue == [] || !relay.stage.Handling? || relay.stage.phases != AllWaiting(|relay.stage.phases|) then s
    else SetRelay(s, r, relay.(stage := AfterFailedTry(c, relay.queue[0], relay.stage.tries)))
  }

  function DoCheck(c: Config, s: State, r: Owner, i: nat, answered: bool): (s': State)
    ensures LocalTo(s, s', r)
  {
    if !InPhase(c, s, r, i, Waiting) then s
    else
      var key := (Head(s, r).id, Hands(c, Head(s, r))[i]);
      if !answered then SetPhase(s, r, i, Settled(false))
      else if key in s.db.log && s.db.log[key] then SetPhase(s, r, i, Settled(true))
      else SetPhase(s, r, i, Running)
  }

  function DoRun(c: Config, s: State, r: Owner, i: nat, success: bool): (s': State)
    ensures LocalTo(s, s', r)
  {
    if !InPhase(c, s, r, i, Running) then s
    else
      var s' := SetPhase(s, r, i, Recording(success));
      if success then s'.(bodies := s.bodies + multiset{(Head(s, r).id, Hands(c, Head(s, r))[i])}) else s'
  }

  /** A result whose write fails, or seems to, makes the handler count as failed whatever its body did. */
  function DoRecord(c: Config, s: State, r: Owner, i: nat, reply: Reply): (s': State)
    ensures LocalTo(s, s', r)
  {
    if InPhase(c, s, r, i, Recording(true)) then
      Log(c, SetPhase(s, r, i, Settled(reply == Answered && Head(s, r).id in s.db.rows)), Head(s, r).id, Hands(c, Head(s, r))[i], true, reply)
    else if InPhase(c, s, r, i, Recording(false)) then
      Log(c, SetPhase(s, r, i, Settled(false)), Head(s, r).id, Hands(c, Head(s, r))[i], false, reply)
    else s
  }

  function Log(c: Config, s: State, id: EventId, handler: HandlerName, success: bool, reply: Reply): State {
    if reply == LostBeforeCommit then s else Sql(c, s, Statement.Record(id, handler, success))
  }

  function DoEndTry(c: Config, s: State, r: Owner): (s': State)
    ensures LocalTo(s, s', r)
  {
    var relay := RelayOf(s, r);
    if relay.queue == [] || !relay.stage.Handling? || !AllSettled(relay.stage.phases) then s
    else if AllSucceeded(relay.stage.phases) then SetRelay(s, r, relay.(stage := Publishing))
    else SetRelay(s, r, relay.(stage := AfterFailedTry(c, relay.queue[0], relay.stage.tries)))
  }

  function DoMarkPublished(c: Config, s: State, r: Owner, reply: Reply): (s': State)
    ensures RelayOf(s, r).queue != [] ==> SqlBy(c, s, s', r, UpdateClaimed(r, Head(s, r).id, Publish(s.db.now)))
    ensures RelayOf(s, r).queue == [] ==> s' == s
  {
    var relay := RelayOf(s, r);
    if relay.queue == [] || !relay.stage.Publishing? then s
    else
      var id := relay.queue[0].id;
      var accepted := reply != LostBeforeCommit && Accepts(s.db.rows, id, r, s.db.now);
      var s' := if accepted
                then Sql(c, s, UpdateClaimed(r, id, Publish(s.db.now))).(published := s.published + {id}) else s;
      // an exception from the statement lands in the same catch block as a failed handler
      if reply == Answered then Advance(s', r) else SetRelay(s', r, relay.(stage := Failing))
  }

  function MarkFailedStatement(c: Config, s: State, r: Owner): Statement
    requires RelayOf(s, r).queue != []
  {
    UpdateClaimed(r, Head(s, r).id, FailureUpdate(Head(s, r).attempts, c.maxAttempts, s.db.now))
  }

  function DoMarkFailed(c: Config, s: State, r: Owner, reply: Reply): (s': State)
    ensures RelayOf(s, r).queue != [] ==> SqlBy(c, s, s', r, MarkFailedStatement(c, s, r))
    ensures RelayOf(s, r).queue == [] ==> s' == s
  {
    var relay := RelayOf(s, r);
    if relay.queue == [] || !relay.stage.Failing? then s
    else
      var s' := if reply == LostBeforeCommit then s else Sql(c, s, MarkFailedStatement(c, s, r));
      // an exception here escapes the loop and ends the poll
      if reply == Answered then Advance(s', r)
      else SetRelay(s', r, relay.(queue := [], stage := Idle, active := {}))
  }

  function DoEndPoll(s: State, r: Owner): (s': State)
    ensures LocalTo(s, s', r)
  {
    var relay := RelayOf(s, r);
    if relay.queue != [] || !relay.stage.Idle? then s else SetRelay(s, r, relay.(active := {}))
  }

  function DoHeartbeat(c: Config, s: State, r: Owner): (s': State)
    ensures SqlBy(c, s, s', r, Renew(r, RelayOf(s, r).active))
  {
    var relay := RelayOf(s, r);
    if relay.beat.Some? || relay.active == {} then s
    else
      SetRelay(Sql(c, s, Renew(r, relay.active)), r,
               relay.(beat := Some(Beat(relay.active, RenewedIds(s.db.rows, r, relay.active, s.db.now)))))
  }

  function DoHeartbeatReply(s: State, r: Owner, answered: bool): (s': State)
    ensures LocalTo(s, s', r)
  {
    var relay := RelayOf(s, r);
    if relay.beat.None? then s
    else if !answered then SetRelay(s, r, relay.(beat := None))
    else
      SetRelay(s, r, relay.(beat := None, active := relay.active - (relay.beat.value.sent - relay.beat.value.renewed)))
  }

  function Apply(c: Config, s: State, a: Action): State {
    match a
    case Insert(id, name, occurredAt) => DoInsert(c, s, id, name, occurredAt)
    case Poll(r, order) => DoPoll(c, s, r, order)
    case Skip(r) => DoSkip(s, r)
    case Begin(r) => DoBegin(c, s, r)
    case Undecodable(r) => DoUndecodable(c, s, r)
    case Check(r, i, answered) => DoCheck(c, s, r, i, answered)
    case Run(r, i, success) => DoRun(c, s, r, i, success)
    case Record(r, i, reply) => DoRecord(c, s, r, i, reply)
    case EndTry(r) => DoEndTry(c, s, r)
    case MarkPublished(r, reply) => DoMarkPublished(c, s, r, reply)
    case MarkFailed(r, reply) => DoMarkFailed(c, s, r, reply)
    case EndPoll(r) => DoEndPoll(s, r)
    case Heartbeat(r) => DoHeartbeat(c, s, r)
    case HeartbeatReply(r, answered) => DoHeartbeatReply(s, r, answered)
    case Crash(r) => SetRelay(s, r, FRESH)
    case Replay(ids) => Sql(c, s, Requeue(ids))
    case Cleanup(ids, cutoff) => Sql(c, s, DeletePublished(ids, cutoff))
    case Tick(elapsed) => Sql(c, s, Statement.Tick(elapsed))
  }

  function Runs(c: Config, s: State, actions: seq<Action>): State
    decreases |actions|
  {
    if actions == [] then s else Runs(c, Apply(c, s, actions[0]), actions[1..])
  }

  lemma {:induction false} RunsAppend(c: Config, s: State, before: seq<Action>, after: seq<Action>)
    ensures Runs(c, s, before + after) == Runs(c, Runs(c, s, before), after)
    ensures |after| == 1 ==> Runs(c, s, before + after) == Apply(c, Runs(c, s, before), after[0])
    decreases |before|
  {
    if before == [] {
      assert before + after == after;
    } else {
      assert (before + after)[0] == before[0] && (before + after)[1..] == before[1..] + after;
      RunsAppend(c, Apply(c, s, before[0]), before[1..], after);
    }
  }

  lemma RunsCons(c: Config, s: State, a: Action, rest: seq<Action>)
    ensures Runs(c, s, [a] + rest) == Runs(c, Apply(c, s, a), rest)
  {
    assert ([a] + rest)[1..] == rest;
  }

  lemma FourThenRuns(c: Config, s: State, a0: Action, a1: Action, a2: Action, a3: Action, rest: seq<Action>)
    ensures Runs(c, s, [a0] + ([a1] + ([a2] + ([a3] + rest)))) == Runs(c, Apply(c, Apply(c, Apply(c, Apply(c, s, a0), a1), a2), a3), rest)
  {
    var s1 := Apply(c, s, a0);
    var s2 := Apply(c, s1, a1);
    var s3 := Apply(c, s2, a2);
    RunsCons(c, s, a0, [a1] + ([a2] + ([a3] + rest)));
    RunsCons(c, s1, a1, [a2] + ([a3] + rest));
    RunsCons(c, s2, a2, [a3] + rest);
    RunsCons(c, s3, a3, rest);
  }

  lemma RunsFour(c: Config, s: State, a: seq<Action>)
    requires |a| == 4
    ensures Runs(c, s, a) == Apply(c, Apply(c, Apply(c, Apply(c, s, a[0]), a[1]), a[2]), a[3])
  {
    assert a == [a[0]] + ([a[1]] + ([a[2]] + ([a[3]] + [])));
    FourThenRuns(c, s, a[0], a[1], a[2], a[3], []);
  }

  /** An empty outbox before any relay has polled. */
  function Initial(now: Time): State {
    State(Db(map[], map[], now), map[], map[], {}, multiset{})
  }
}
