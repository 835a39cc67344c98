/**
 What every run of the outbox protocol keeps: leases fence, the retry count is exact, settled
 rows stay settled, and no event is lost.
 */
module OutboxSafety {
  import opened Wrappers
  import opened Numbers
  import opened OutboxTable
  import opened OutboxProtocol

  /** Each handler the configuration subscribes to the event has completed for it. */
  ghost predicate AllHandled(c: Config, s: State, id: EventId, name: EventName) {
    forall i :: 0 <= i < |c.Handlers(name)| ==> (id, c.Handlers(name)[i]) in s.bodies
  }

  ghost predicate RecordsOk(c: Config, s: State) {
    && TableOk(c, s.db)
    && (forall id :: id in s.db.rows ==> id in s.names && s.names[id] == s.db.rows[id].eventName)
    && (forall id :: id in s.names ==> id in s.db.rows || id in s.published)
    && (forall id :: id in s.published ==> id in s.names && AllHandled(c, s, id, s.names[id]))
    && (forall id :: id in s.db.rows ==> (s.db.rows[id].publishedAt.Some? <==> id in s.published))
    && (forall k :: k in s.db.log && s.db.log[k] ==> k in s.bodies)
  }

  /** The fence: while the row still carries this relay's lock, the captured count is current. */
  predicate WorkOk(s: State, r: Owner, w: Work) {
    && w.id in s.names && s.names[w.id] == w.name
    && (w.id in s.db.rows && s.db.rows[w.id].lockOwner == Some(r) ==> s.db.rows[w.id].attempts == w.attempts)
  }

  ghost predicate StageOk(c: Config, s: State, relay: Relay) {
    && (relay.stage.Idle? || relay.queue != [])
    && (relay.stage.Handling? ==>
          var hands := Hands(c, relay.queue[0]);
          && |relay.stage.phases| == |hands|
          && forall i :: 0 <= i < |hands| && relay.stage.phases[i] in {Recording(true), Settled(true)} ==>
               (relay.queue[0].id, hands[i]) in s.bodies)
    && (relay.stage.Publishing? ==> AllHandled(c, s, relay.queue[0].id, relay.queue[0].name))
  }

  ghost predicate RelayOk(c: Config, s: State, r: Owner) {
    && (forall k :: 0 <= k < |RelayOf(s, r).queue| ==> WorkOk(s, r, RelayOf(s, r).queue[k]))
    && StageOk(c, s, RelayOf(s, r))
  }

  ghost predicate Inv(c: Config, s: State) {
    && c.maxAttempts >= 1
    && RecordsOk(c, s)
    && forall r: Owner :: RelayOk(c, s, r)
  }

  /** What the rest of the system may do to the rows a relay holds: release them, no more. */
  ghost predicate Rely(s: State, s': State, r: Owner) {
    && (forall id :: id in s.names ==> id in s'.names && s'.names[id] == s.names[id])
    && s.bodies <= s'.bodies
    && (forall id :: id in s.names && id in s'.db.rows && s'.db.rows[id].lockOwner == Some(r) ==>
          && id in s.db.rows && s.db.rows[id].lockOwner == Some(r)
          && s'.db.rows[id].attempts == s.db.rows[id].attempts)
  }

  lemma RelayFrame(c: Config, s: State, s': State, r: Owner)
    requires RelayOk(c, s, r) && Rely(s, s', r) && RelayOf(s', r) == RelayOf(s, r)
    ensures RelayOk(c, s', r)
  {
  }

  function Actor(a: Action): Option<Owner> {
    match a
    case Poll(r, _) => Some(r)
    case Skip(r) => Some(r)
    case Begin(r) => Some(r)
    case Undecodable(r) => Some(r)
    case Check(r, _, _) => Some(r)
    case Run(r, _, _) => Some(r)
    case Record(r, _, _) => Some(r)
    case EndTry(r) => Some(r)
    case MarkPublished(r, _) => Some(r)
    case MarkFailed(r, _) => Some(r)
    case EndPoll(r) => Some(r)
    case Heartbeat(r) => Some(r)
    case HeartbeatReply(r, _) => Some(r)
    case Crash(r) => Some(r)
    case Insert(_, _, _) => None
    case Replay(_) => None
    case Cleanup(_, _) => None
    case Tick(_) => None
  }

  /** Statements other than this relay's own release its rows or leave them alone. */
  lemma SqlRely(c: Config, s: State, statement: Statement, r: Owner)
    requires RecordsOk(c, s) && !statement.Insert?
    requires statement.Claim? || statement.UpdateClaimed? ==> statement.owner != r
    ensures Rely(s, Sql(c, s, statement), r)
  {
  }

  predicate Local(a: Action) {
    a.Skip? || a.Begin? || a.Undecodable? || a.Check? || a.Run? || a.Record? || a.EndTry? || a.EndPoll?
    || a.HeartbeatReply? || a.Crash?
  }

  lemma LocalRely(s: State, s': State, actor: Owner, r: Owner)
    requires LocalTo(s, s', actor) && r != actor
    ensures Rely(s, s', r) && RelayOf(s', r) == RelayOf(s, r)
  {
  }

  lemma SqlByRely(c: Config, s: State, s': State, actor: Owner, statement: Statement, r: Owner)
    requires RecordsOk(c, s) && SqlBy(c, s, s', actor, statement) && r != actor
    requires !statement.Insert? && (statement.Claim? || statement.UpdateClaimed? ==> statement.owner != r)
    ensures Rely(s, s', r) && RelayOf(s', r) == RelayOf(s, r)
  {
    SqlRely(c, s, statement, r);
  }

  /** Nobody but the relay itself can change the attempt count of a row that carries its lock. */
  lemma OthersRely(c: Config, s: State, a: Action, r: Owner)
    requires Inv(c, s) && Actor(a) != Some(r)
    ensures Rely(s, Apply(c, s, a), r) && RelayOf(Apply(c, s, a), r) == RelayOf(s, r)
  {
    var s' := Apply(c, s, a);
    if Local(a) {
      LocalRely(s, s', Actor(a).value, r);
    } else {
      match a
      case Poll(o, order) => SqlByRely(c, s, s', o, Claim(o, Elements(order)), r);
      case MarkPublished(o, reply) =>
        if RelayOf(s, o).queue != [] {
          SqlByRely(c, s, s', o, UpdateClaimed(o, Head(s, o).id, Publish(s.db.now)), r);
        }
      case MarkFailed(o, reply) =>
        if RelayOf(s, o).queue != [] { SqlByRely(c, s, s', o, MarkFailedStatement(c, s, o), r); }
      case Heartbeat(o) => SqlByRely(c, s, s', o, Renew(o, RelayOf(s, o).active), r);
      case Replay(ids) => SqlRely(c, s, Requeue(ids), r);
      case Cleanup(ids, cutoff) => SqlRely(c, s, DeletePublished(ids, cutoff), r);
      case _ =>
    }
  }

  lemma BookkeepingKeepsRelay(c: Config, s: State, a: Action, r: Owner)
    requires RelayOk(c, s, r) && Actor(a) == Some(r)
    requires a.Skip? || a.Begin? || a.EndPoll? || a.HeartbeatReply? || a.Crash?
    ensures RelayOk(c, Apply(c, s, a), r)
  {
  }

  lemma TryKeepsRelay(c: Config, s: State, a: Action, r: Owner)
    requires RelayOk(c, s, r) && Actor(a) == Some(r) && (a.Undecodable? || a.EndTry?)
    ensures RelayOk(c, Apply(c, s, a), r)
  {
  }

  lemma CheckKeepsRelay(c: Config, s: State, r: Owner, i: nat, answered: bool)
    requires RecordsOk(c, s) && RelayOk(c, s, r)
    ensures RelayOk(c, DoCheck(c, s, r, i, answered), r)
  {
  }

  lemma RunKeepsRelay(c: Config, s: State, r: Owner, i: nat, success: bool)
    requires RelayOk(c, s, r)
    ensures RelayOk(c, DoRun(c, s, r, i, success), r)
  {
  }

  lemma RecordKeepsRelay(c: Config, s: State, r: Owner, i: nat, reply: Reply)
    requires RelayOk(c, s, r)
    ensures RelayOk(c, DoRecord(c, s, r, i, reply), r)
  {
  }

  lemma PollKeepsRelay(c: Config, s: State, r: Owner, order: seq<EventId>)
    requires Inv(c, s)
    ensures RelayOk(c, DoPoll(c, s, r, order), r)
  {
    assert RelayOk(c, s, r);
  }

  /** The accepted update drops the lock, so the rest of the queue stays fenced. */
  lemma MarkPublishedKeepsRelay(c: Config, s: State, r: Owner, reply: Reply)
    requires Inv(c, s)
    ensures RelayOk(c, DoMarkPublished(c, s, r, reply), r)
  {
    assert RelayOk(c, s, r);
  }

  lemma MarkFailedKeepsRelay(c: Config, s: State, r: Owner, reply: Reply)
    requires Inv(c, s)
    ensures RelayOk(c, DoMarkFailed(c, s, r, reply), r)
  {
    assert RelayOk(c, s, r);
  }

  lemma HeartbeatKeepsRelay(c: Config, s: State, r: Owner)
    requires Inv(c, s)
    ensures RelayOk(c, DoHeartbeat(c, s, r), r)
  {
    assert RelayOk(c, s, r);
  }

  lemma MarkKeepsRelay(c: Config, s: State, a: Action, r: Owner)
    requires Inv(c, s) && Actor(a) == Some(r) && (a.MarkPublished? || a.MarkFailed? || a.Heartbeat?)
    ensures RelayOk(c, Apply(c, s, a), r)
  {
    match a
    case MarkPublished(_, reply) => MarkPublishedKeepsRelay(c, s, r, reply);
    case MarkFailed(_, reply) => MarkFailedKeepsRelay(c, s, r, reply);
    case Heartbeat(_) => HeartbeatKeepsRelay(c, s, r);
    case _ =>
  }

  lemma LocalKeepsRecords(c: Config, s: State, s': State, r: Owner)
    requires RecordsOk(c, s) && LocalTo(s, s', r)
    requires forall k :: k in s'.db.log && s'.db.log[k] ==> k in s'.bodies
    ensures RecordsOk(c, s')
  {
  }

  lemma OnlyRecordsLog(c: Config, s: State, a: Action)
    requires Local(a) && !a.Record?
    ensures Apply(c, s, a).db.log == s.db.log && s.bodies <= Apply(c, s, a).bodies
  {
  }

  lemma LocalKeepsLog(c: Config, s: State, a: Action)
    requires Inv(c, s) && Local(a)
    ensures var s' := Apply(c, s, a); forall k :: k in s'.db.log && s'.db.log[k] ==> k in s'.bodies
  {
    if a.Record? {
      assert RelayOk(c, s, a.r);
    } else {
      OnlyRecordsLog(c, s, a);
    }
  }

  lemma SqlKeepsTable(c: Config, db: Db, statement: Statement)
    requires TableOk(c, db) && c.maxAttempts >= 1
    requires statement.UpdateClaimed? && Accepts(db.rows, statement.id, statement.owner, db.now) ==>
               statement.update == Publish(db.now)
               || statement.update == FailureUpdate(db.rows[statement.id].attempts, c.maxAttempts, db.now)
    ensures TableOk(c, Exec(c, db, statement))
  {
  }

  /** A statement that neither inserts nor publishes keeps the history in step with the rows. */
  lemma SqlKeepsRecords(c: Config, s: State, s': State, statement: Statement)
    requires RecordsOk(c, s) && c.maxAttempts >= 1
    requires s'.db == s.db || s'.db == Exec(c, s.db, statement)
    requires s'.names == s.names && s'.bodies == s.bodies && s'.published == s.published
    requires !statement.Insert? && !statement.Record?
    requires statement.UpdateClaimed? && Accepts(s.db.rows, statement.id, statement.owner, s.db.now) ==>
               statement.update == FailureUpdate(s.db.rows[statement.id].attempts, c.maxAttempts, s.db.now)
    ensures RecordsOk(c, s')
  {
    SqlKeepsTable(c, s.db, statement);
  }

  lemma PublishKeepsRecords(c: Config, s: State, r: Owner, reply: Reply)
    requires RecordsOk(c, s) && RelayOk(c, s, r) && c.maxAttempts >= 1
    ensures RecordsOk(c, DoMarkPublished(c, s, r, reply))
  {
    if RelayOf(s, r).queue != [] { SqlKeepsTable(c, s.db, UpdateClaimed(r, Head(s, r).id, Publish(s.db.now))); }
  }

  lemma InsertKeepsRecords(c: Config, s: State, id: EventId, name: EventName, at: Time)
    requires RecordsOk(c, s) && c.maxAttempts >= 1
    ensures RecordsOk(c, DoInsert(c, s, id, name, at))
  {
  }

  lemma StepKeepsRecords(c: Config, s: State, a: Action)
    requires Inv(c, s)
    ensures RecordsOk(c, Apply(c, s, a))
  {
    var s' := Apply(c, s, a);
    if Local(a) {
      LocalKeepsLog(c, s, a);
      LocalKeepsRecords(c, s, s', Actor(a).value);
    } else {
      match a
      case Poll(r, order) => SqlKeepsRecords(c, s, s', Claim(r, Elements(order)));
      case MarkPublished(r, reply) => assert RelayOk(c, s, r); PublishKeepsRecords(c, s, r, reply);
      case MarkFailed(r, reply) =>
        assert RelayOk(c, s, r);
        if RelayOf(s, r).queue != [] { SqlKeepsRecords(c, s, s', MarkFailedStatement(c, s, r)); }
      case Heartbeat(r) => SqlKeepsRecords(c, s, s', Renew(r, RelayOf(s, r).active));
      case Replay(ids) => SqlKeepsRecords(c, s, s', Requeue(ids));
      case Cleanup(ids, cutoff) => SqlKeepsRecords(c, s, s', DeletePublished(ids, cutoff));
      case Tick(elapsed) => SqlKeepsRecords(c, s, s', Statement.Tick(elapsed));
      case Insert(id, name, at) => InsertKeepsRecords(c, s, id, name, at);
    }
  }

  lemma StepKeepsInv(c: Config, s: State, a: Action)
    requires Inv(c, s)
    ensures Inv(c, Apply(c, s, a))
  {
    StepKeepsRecords(c, s, a);
    forall r: Owner ensures RelayOk(c, Apply(c, s, a), r) {
      if Actor(a) == Some(r) {
        match a
        case Poll(_, order) => PollKeepsRelay(c, s, r, order);
        case MarkPublished(_, _) => MarkKeepsRelay(c, s, a, r);
        case MarkFailed(_, _) => MarkKeepsRelay(c, s, a, r);
        case Heartbeat(_) => MarkKeepsRelay(c, s, a, r);
        case Undecodable(_) => TryKeepsRelay(c, s, a, r);
        case EndTry(_) => TryKeepsRelay(c, s, a, r);
        case Check(_, i, answered) => CheckKeepsRelay(c, s, r, i, answered);
        case Run(_, i, success) => RunKeepsRelay(c, s, r, i, success);
        case Record(_, i, reply) => RecordKeepsRelay(c, s, r, i, reply);
        case _ => BookkeepingKeepsRelay(c, s, a, r);
      } else {
        OthersRely(c, s, a, r);
        RelayFrame(c, s, Apply(c, s, a), r);
      }
    }
  }

  lemma InitialInv(c: Config, now: Time)
    requires c.maxAttempts >= 1
    ensures Inv(c, Initial(now))
  {
  }

  lemma {:induction false} RunKeepsInv(c: Config, s: State, actions: seq<Action>)
    requires Inv(c, s)
    ensures Inv(c, Runs(c, s, actions))
    decreases |actions|
  {
    if actions != [] {
      StepKeepsInv(c, s, actions[0]);
      RunKeepsInv(c, Apply(c, s, actions[0]), actions[1..]);
    }
  }

  /**
   In every run, whatever row the relay is about to settle: if the store accepts the update,
   the attempt count captured at claim time is the stored one, so the dead-letter decision
   taken on the captured count is the right one for the stored row.
   */
  lemma LeaseFencesRetryCount(c: Config, now: Time, actions: seq<Action>, r: Owner)
    requires c.maxAttempts >= 1
    ensures var s := Runs(c, Initial(now), actions);
            RelayOf(s, r).queue != [] && Accepts(s.db.rows, Head(s, r).id, r, s.db.now) ==>
              var w := Head(s, r);
              var before := s.db.rows[w.id];
              var after := Updated(before, FailureUpdate(w.attempts, c.maxAttempts, s.db.now));
              && w.attempts == before.attempts < c.maxAttempts
              && after.attempts == before.attempts + 1
              && (after.deadLetteredAt.Some? <==> after.attempts == c.maxAttempts)
              && (Pending(after) ==> after.leaseUntil == Some(s.db.now + Backoff(BACKOFF_BASE, MAX_BACKOFF, before.attempts)))
  {
    InitialInv(c, now);
    RunKeepsInv(c, Initial(now), actions);
    assert RelayOk(c, Runs(c, Initial(now), actions), r);
  }

  /** Every row of every run: pending below the limit, dead-lettered exactly at it, never both settled. */
  lemma RowsStayWellFormed(c: Config, now: Time, actions: seq<Action>)
    requires c.maxAttempts >= 1
    ensures var s := Runs(c, Initial(now), actions);
            forall id :: id in s.db.rows ==>
              var row := s.db.rows[id];
              && (Pending(row) ==> row.attempts < c.maxAttempts)
              && (DeadLettered(row) <==> row.attempts == c.maxAttempts)
              && !(row.publishedAt.Some? && row.deadLetteredAt.Some?)
              && (!Pending(row) ==> row.lockOwner.None?)
  {
    InitialInv(c, now);
    RunKeepsInv(c, Initial(now), actions);
  }

  /** No event is lost, and publication means that every subscribed handler has completed. */
  lemma NoEventIsLost(c: Config, now: Time, actions: seq<Action>)
    requires c.maxAttempts >= 1
    ensures var s := Runs(c, Initial(now), actions);
            forall id :: id in s.names ==>
              && (id in s.db.rows || id in s.published)
              && (id in s.published ==> forall h :: h in c.Handlers(s.names[id]) ==> (id, h) in s.bodies)
              && (id in s.db.rows && s.db.rows[id].publishedAt.Some? ==> id in s.published)
  {
    InitialInv(c, now);
    RunKeepsInv(c, Initial(now), actions);
    var s := Runs(c, Initial(now), actions);
    forall id, h | id in s.published && h in c.Handlers(s.names[id]) ensures (id, h) in s.bodies {
      assert AllHandled(c, s, id, s.names[id]);
    }
  }

  lemma SqlKeepsSettled(c: Config, db: Db, statement: Statement, id: EventId)
    requires TableOk(c, db)
    ensures id in db.rows && db.rows[id].publishedAt.Some? ==>
              var rows := Exec(c, db, statement).rows;
              if id in rows then rows[id] == db.rows[id]
              else statement.DeletePublished? && PublishedBefore(db.rows[id], statement.cutoff)
    ensures id !in db.rows && (statement.Insert? ==> statement.id != id) ==> id !in Exec(c, db, statement).rows
  {
    if id in db.rows { assert RowOk(c, db.now, db.rows[id]); }
  }

  /** The one statement of an action that touches rows. */
  function StatementOf(c: Config, s: State, a: Action): Option<Statement> {
    match a
    case Insert(id, name, occurredAt) => Some(Statement.Insert(id, name, occurredAt))
    case Poll(r, order) => Some(Claim(r, Elements(order)))
    case MarkPublished(r, _) =>
      if RelayOf(s, r).queue == [] then None else Some(UpdateClaimed(r, Head(s, r).id, Publish(s.db.now)))
    case MarkFailed(r, _) => if RelayOf(s, r).queue == [] then None else Some(MarkFailedStatement(c, s, r))
    case Heartbeat(r) => Some(Renew(r, RelayOf(s, r).active))
    case Replay(ids) => Some(Requeue(ids))
    case Cleanup(ids, cutoff) => Some(DeletePublished(ids, cutoff))
    case Tick(elapsed) => Some(Statement.Tick(elapsed))
    case _ => None
  }

  lemma StepIsAStatement(c: Config, s: State, a: Action)
    ensures Apply(c, s, a).db.rows == s.db.rows
            || (StatementOf(c, s, a).Some? && Apply(c, s, a).db == Exec(c, s.db, StatementOf(c, s, a).value)
                && (a.Insert? ==> a.id !in s.names))
  {
  }

  /** A published row is never claimed or changed again: it stays as it is until it is deleted. */
  lemma StepKeepsPublished(c: Config, s: State, a: Action, id: EventId)
    requires Inv(c, s) && id in s.db.rows && s.db.rows[id].publishedAt.Some?
    ensures id in Apply(c, s, a).db.rows ==> Apply(c, s, a).db.rows[id] == s.db.rows[id]
    ensures id !in Apply(c, s, a).db.rows ==> a.Cleanup? && PublishedBefore(s.db.rows[id], a.cutoff)
  {
    StepIsAStatement(c, s, a);
    if StatementOf(c, s, a).Some? { SqlKeepsSettled(c, s.db, StatementOf(c, s, a).value, id); }
  }

  lemma NamesOnlyGrow(c: Config, s: State, a: Action)
    ensures s.names.Keys <= Apply(c, s, a).names.Keys
  {
  }

  lemma StepKeepsDeleted(c: Config, s: State, a: Action, id: EventId)
    requires Inv(c, s) && id in s.names && id !in s.db.rows
    ensures id in Apply(c, s, a).names && id !in Apply(c, s, a).db.rows
  {
    NamesOnlyGrow(c, s, a);
    StepIsAStatement(c, s, a);
    if StatementOf(c, s, a).Some? { SqlKeepsSettled(c, s.db, StatementOf(c, s, a).value, id); }
  }

  lemma {:induction false} DeletedStaysDeleted(c: Config, s: State, actions: seq<Action>, id: EventId)
    requires Inv(c, s) && id in s.names && id !in s.db.rows
    ensures id !in Runs(c, s, actions).db.rows
    decreases |actions|
  {
    if actions != [] {
      StepKeepsInv(c, s, actions[0]);
      StepKeepsDeleted(c, s, actions[0], id);
      DeletedStaysDeleted(c, Apply(c, s, actions[0]), actions[1..], id);
    }
  }

  /** Publication is final over whole runs: no relay, replay or clean-up brings the event back. */
  lemma {:induction false} PublishedIsFinal(c: Config, s: State, actions: seq<Action>, id: EventId)
    requires Inv(c, s) && id in s.db.rows && s.db.rows[id].publishedAt.Some?
    ensures id in Runs(c, s, actions).db.rows ==> Runs(c, s, actions).db.rows[id] == s.db.rows[id]
    decreases |actions|
  {
    if actions != [] {
      var s' := Apply(c, s, actions[0]);
      StepKeepsInv(c, s, actions[0]);
      StepKeepsPublished(c, s, actions[0], id);
      if id in s'.db.rows {
        PublishedIsFinal(c, s', actions[1..], id);
      } else {
        DeletedStaysDeleted(c, s', actions[1..], id);
      }
    }
  }
}
