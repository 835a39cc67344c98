/**
 The outbox tables and the guarded SQL statements that change them.  Every statement is one
 atomic step; `Exec` is its meaning.  The imperative stores (OutboxStore.dfy) and the
 many-relay protocol (OutboxProtocol.dfy) are both proved against these functions.
 */
module OutboxTable {
  import opened Wrappers
  import opened Numbers

  type EventId = nat
  type Owner = nat
  type EventName = string
  type HandlerName = string
  type Time = nat  // milliseconds of the one global clock

  /** Limits shared by every relay; the constructor defaults are 10 attempts, 60 s, 50 rows. */
  datatype Config = Config(maxAttempts: nat, lease: nat, batchSize: nat, handlers: map<EventName, seq<HandlerName>>) {
    function Handlers(name: EventName): seq<HandlerName> {
      if name in handlers then handlers[name] else []
    }

    /** No claim or back-off reaches further into the future than this. */
    function Horizon(): nat {
      if lease < MAX_BACKOFF then MAX_BACKOFF else lease
    }
  }

  const BACKOFF_BASE: nat := 1_000
  const MAX_BACKOFF: nat := 60_000
  const MAX_TRIES: nat := 3  // one call and two retries inside a claim

  datatype Row = Row(
    eventName: EventName,
    occurredAt: Time,
    attempts: nat,
    publishedAt: Option<Time>,
    deadLetteredAt: Option<Time>,
    lockedAt: Option<Time>,
    lockOwner: Option<Owner>,
    leaseUntil: Option<Time>)

  type Table = map<EventId, Row>
  type HandlerLog = map<(EventId, HandlerName), bool>  // true for SUCCESS, false for FAILED

  datatype Db = Db(rows: Table, log: HandlerLog, now: Time)

  predicate Pending(row: Row) {
    row.publishedAt.None? && row.deadLetteredAt.None?
  }

  predicate DeadLettered(row: Row) {
    row.publishedAt.None? && row.deadLetteredAt.Some?
  }

  predicate Claimable(row: Row, maxAttempts: nat, now: Time) {
    && Pending(row)
    && row.attempts < maxAttempts
    && (row.leaseUntil.None? || row.leaseUntil.value < now)
  }

  predicate HeldBy(row: Row, owner: Owner, now: Time) {
    && Pending(row)
    && row.lockOwner == Some(owner)
    && row.leaseUntil.Some? && now < row.leaseUntil.value
  }

  predicate PublishedBefore(row: Row, cutoff: Time) {
    row.publishedAt.Some? && row.publishedAt.value < cutoff
  }

  function Lease(row: Row, now: Time, lease: nat): Row {
    row.(lockedAt := Some(now), leaseUntil := Some(now + lease))
  }

  /** The two data objects a relay passes to `updateClaimed`. */
  datatype Update =
    | Publish(at: Time)
    | Fail(retryAt: Option<Time>, deadLetteredAt: Option<Time>)

  function Updated(row: Row, u: Update): Row {
    var released := row.(lockedAt := None, lockOwner := None);
    match u
    case Publish(at) => released.(publishedAt := Some(at), leaseUntil := None)
    case Fail(retryAt, deadLetteredAt) =>
      released.(attempts := row.attempts + 1, leaseUntil := retryAt, deadLetteredAt := deadLetteredAt)
  }

  /** The failure update computed from the attempt count CAPTURED at claim time. */
  function FailureUpdate(captured: nat, maxAttempts: nat, now: Time): Update {
    if captured + 1 >= maxAttempts
    then Fail(None, Some(now))
    else Fail(Some(now + Backoff(BACKOFF_BASE, MAX_BACKOFF, captured)), None)
  }

  function Requeued(row: Row): Row {
    row.(attempts := 0, deadLetteredAt := None, lockedAt := None, lockOwner := None, leaseUntil := None)
  }

  predicate AllDeadLettered(rows: Table, ids: set<EventId>) {
    forall id | id in ids :: id in rows && DeadLettered(rows[id])
  }

  datatype Statement =
    | Insert(id: EventId, eventName: EventName, occurredAt: Time)
    | Claim(owner: Owner, ids: set<EventId>)
    | Renew(owner: Owner, ids: set<EventId>)
    | UpdateClaimed(owner: Owner, id: EventId, update: Update)
    | Record(id: EventId, handler: HandlerName, success: bool)
    | Requeue(ids: set<EventId>)
    | DeletePublished(ids: set<EventId>, cutoff: Time)
    | Tick(elapsed: nat)

  function ClaimedRows(rows: Table, owner: Owner, ids: set<EventId>, c: Config, now: Time): Table {
    map id | id in rows ::
      if id in ids && Claimable(rows[id], c.maxAttempts, now)
      then Lease(rows[id], now, c.lease).(lockOwner := Some(owner)) else rows[id]
  }

  function RenewedIds(rows: Table, owner: Owner, ids: set<EventId>, now: Time): set<EventId> {
    set id | id in ids && id in rows && HeldBy(rows[id], owner, now)
  }

  function RenewedRows(rows: Table, owner: Owner, ids: set<EventId>, c: Config, now: Time): Table {
    map id | id in rows ::
      if id in ids && HeldBy(rows[id], owner, now) then Lease(rows[id], now, c.lease) else rows[id]
  }

  predicate Accepts(rows: Table, id: EventId, owner: Owner, now: Time) {
    id in rows && HeldBy(rows[id], owner, now)
  }

  function UpdatedRows(rows: Table, owner: Owner, id: EventId, u: Update, now: Time): Table {
    if Accepts(rows, id, owner, now) then rows[id := Updated(rows[id], u)] else rows
  }

  /** All or nothing: one id that is missing or not dead-lettered leaves every row alone. */
  function RequeuedRows(rows: Table, ids: set<EventId>): Table {
    if AllDeadLettered(rows, ids)
    then map id | id in rows :: if id in ids then Requeued(rows[id]) else rows[id]
    else rows
  }

  function DeletedIds(rows: Table, ids: set<EventId>, cutoff: Time): set<EventId> {
    set id | id in ids && id in rows && PublishedBefore(rows[id], cutoff)
  }

  /** Deleting an event cascades to its handler log. */
  function LogWithout(log: HandlerLog, ids: set<EventId>): HandlerLog {
    map k | k in log && k.0 !in ids :: log[k]
  }

  function Exec(c: Config, db: Db, s: Statement): Db {
    match s
    case Insert(id, name, occurredAt) =>
      if id in db.rows then db
      else db.(rows := db.rows[id := Row(name, occurredAt, 0, None, None, None, None, None)])
    case Claim(owner, ids) => db.(rows := ClaimedRows(db.rows, owner, ids, c, db.now))
    case Renew(owner, ids) => db.(rows := RenewedRows(db.rows, owner, ids, c, db.now))
    case UpdateClaimed(owner, id, u) => db.(rows := UpdatedRows(db.rows, owner, id, u, db.now))
    case Record(id, h, ok) =>
      // the foreign key rejects a result for a deleted event
      if id in db.rows then db.(log := db.log[(id, h) := ok]) else db
    case Requeue(ids) => db.(rows := RequeuedRows(db.rows, ids))
    case DeletePublished(ids, cutoff) =>
      var gone := DeletedIds(db.rows, ids, cutoff);
      db.(rows := db.rows - gone, log := LogWithout(db.log, gone))
    case Tick(elapsed) => db.(now := db.now + elapsed)
  }

  function ExecAll(c: Config, db: Db, ss: seq<Statement>): Db
    decreases |ss|
  {
    if ss == [] then db else ExecAll(c, Exec(c, db, ss[0]), ss[1..])
  }

  /**
   The row rules: attempts never pass the limit, a row is dead-lettered exactly when they
   reach it, a settled row holds no lock, and no lease or back-off outruns the horizon.
   */
  predicate RowOk(c: Config, now: Time, row: Row) {
    && row.attempts <= c.maxAttempts
    && (row.deadLetteredAt.Some? <==> row.attempts == c.maxAttempts)
    && !(row.publishedAt.Some? && row.deadLetteredAt.Some?)
    && (!Pending(row) ==> row.lockOwner.None? && row.leaseUntil.None?)
    && (row.leaseUntil.Some? ==> row.leaseUntil.value <= now + c.Horizon())
  }

  ghost predicate TableOk(c: Config, db: Db) {
    forall id :: id in db.rows ==> RowOk(c, db.now, db.rows[id])
  }
}
