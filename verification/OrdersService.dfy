/**
 `updateOrderStatus` as a program: read, hydrate and transition the aggregate, then commit under
 the version that was read, stamping the aggregate's events.  Other requests and the projection
 run between the read and the commit.
 */
module OrdersService {
  import opened Wrappers
  import opened OrderStatus
  import opened OrderAggregate
  import CheckoutModel
  import DomainEvents
  import H = OrderHistory

  datatype ServiceError = NotFound | Rejected(error: OrderError) | VersionConflict

  function StatusRow(row: CheckoutModel.OutboxEvent): seq<H.StatusChanged> {
    if row.OrderRecorded? && row.event.OrderStatusChanged? && row.version.Some?
    then [H.StatusChanged(row.event.oldStatus, row.event.newStatus, row.version.value)] else []
  }

  function CancelRow(row: CheckoutModel.OutboxEvent): seq<nat> {
    if row.OrderRecorded? && row.event.OrderCancelled? && row.version.Some? then [row.version.value] else []
  }

  /** The status events among outbox rows, and the source versions of the cancellations. */
  function StatusRows(rows: seq<CheckoutModel.OutboxEvent>): seq<H.StatusChanged> {
    if rows == [] then [] else StatusRow(rows[0]) + StatusRows(rows[1..])
  }

  function CancelRows(rows: seq<CheckoutModel.OutboxEvent>): seq<nat> {
    if rows == [] then [] else CancelRow(rows[0]) + CancelRows(rows[1..])
  }

  lemma OneRow(a: CheckoutModel.OutboxEvent)
    ensures StatusRows([a]) == StatusRow(a) && CancelRows([a]) == CancelRow(a)
  {
    assert [a][1..] == [];
  }

  lemma TwoRows(a: CheckoutModel.OutboxEvent, b: CheckoutModel.OutboxEvent)
    ensures StatusRows([a, b]) == StatusRow(a) + StatusRow(b) && CancelRows([a, b]) == CancelRow(a) + CancelRow(b)
  {
    assert [a, b][1..] == [b];
    OneRow(b);
  }

  /** What a legal transition raises: the change, and the cancellation if it is one. */
  function Raised(before: Status, target: Status): seq<OrderEvent> {
    [OrderStatusChanged(before, target)] + (if target.CANCELLED? then [OrderCancelled] else [])
  }

  lemma RaisedRows(id: nat, before: Status, target: Status, version: nat)
    ensures var rows := DomainEvents.Rows(id, Raised(before, target), Some(version));
            && StatusRows(rows) == [H.StatusChanged(before, target, version)]
            && CancelRows(rows) == if target.CANCELLED? then [version] else []
  {
    var rows := DomainEvents.Rows(id, Raised(before, target), Some(version));
    var change := CheckoutModel.OrderRecorded(id, OrderStatusChanged(before, target), Some(version));
    if target.CANCELLED? {
      var cancellation := CheckoutModel.OrderRecorded(id, OrderCancelled, Some(version));
      assert rows == [change, cancellation];
      TwoRows(change, cancellation);
    } else {
      assert rows == [change];
      OneRow(change);
    }
  }

  /** Anything but this request's own two steps. */
  predicate Foreign(q: nat, a: H.Action) { (a.Read? ==> a.q != q) && (a.Commit? ==> a.q != q) }

  lemma {:induction false} OthersKeepTheRequest(s: H.State, gap: seq<H.Action>, q: nat)
    requires forall a | a in gap :: Foreign(q, a)
    ensures q in H.Runs(s, gap).requests <==> q in s.requests
    ensures q in s.requests ==> H.Runs(s, gap).requests[q] == s.requests[q]
    decreases |gap|
  {
    if gap != [] {
      assert Foreign(q, gap[0]);
      OthersKeepTheRequest(H.Apply(s, gap[0]), gap[1..], q);
    }
  }

  class OrdersService {
    const q: nat
    const orderId: nat
    const userId: nat
    const items: seq<OrderItem>
    const pricing: Pricing
    /** Whether the order exists at all; orders are never deleted, so this does not change. */
    const stored: bool
    const env: nat -> seq<H.Action>
    var awaits: nat
    var state: H.State

    constructor(q: nat, orderId: nat, userId: nat, items: seq<OrderItem>, pricing: Pricing, stored: bool,
                env: nat -> seq<H.Action>, state: H.State)
      ensures this.q == q && this.orderId == orderId && this.stored == stored && this.env == env && this.state == state && awaits == 0
    {
      this.q, this.orderId, this.userId, this.items, this.pricing, this.env := q, orderId, userId, items, pricing, env;
      this.stored, this.state, awaits := stored, state, 0;
    }

    ghost predicate Valid()
      reads this
    {
      forall k: nat :: forall a | a in env(k) :: Foreign(q, a)
    }

    method Await()
      requires Valid()
      modifies this
      ensures Valid() && state == H.Runs(old(state), env(old(awaits))) && awaits == old(awaits) + 1
      ensures q in state.requests <==> q in old(state).requests
      ensures q in state.requests ==> state.requests[q] == old(state).requests[q]
    {
      OthersKeepTheRequest(state, env(awaits), q);
      var gap := env(awaits);
      state := H.Runs(state, gap);
      awaits := awaits + 1;
    }

    /** The requested transition on the hydrated aggregate. */
    method Transition(order: Order, target: Status) returns (r: Result<(), OrderError>)
      requires order.domainEvents == []
      modifies order`status, order`domainEvents
      ensures r.Success? <==> CanTransition(old(order.status), target)
      ensures r.Success? ==> order.status == target && order.domainEvents == Raised(old(order.status), target)
    {
      match target
      case PENDING => r := Failure(InvalidTransition(order.status, PENDING));
      case CANCELLED => r := order.Cancel();
      case _ => r := order.TransitionStatus(target);
    }

    /** One transaction: the guarded update, and the events under the next version. */
    method UpdateStatusWithEvents(expectedVersion: nat, order: Order) returns (r: Result<nat, ServiceError>)
      modifies this`state, order`domainEvents
      ensures state.version == old(state).version + (if r.Success? then 1 else 0)
      ensures r == if old(state).version == expectedVersion then Success(expectedVersion + 1) else Failure(VersionConflict)
      ensures var rows := DomainEvents.Rows(order.id, old(order.domainEvents), Some(expectedVersion + 1));
              state == if r.Failure? then old(state).(conflicts := old(state).conflicts + 1)
                       else old(state).(status := old(order.status), version := expectedVersion + 1,
                                        events := old(state).events + StatusRows(rows),
                                        cancellations := old(state).cancellations + CancelRows(rows))
    {
      if state.version != expectedVersion {
        state := state.(conflicts := state.conflicts + 1);
        return Failure(VersionConflict);
      }
      var versions := map[order.id := expectedVersion + 1];
      assert DomainEvents.Pending([order][..0], versions) == [];
      var rows := DomainEvents.PersistDomainEvents([], [order], versions);
      assert rows == DomainEvents.Rows(order.id, old(order.domainEvents), Some(expectedVersion + 1));
      state := state.(status := order.status, version := state.version + 1,
                      events := state.events + StatusRows(rows), cancellations := state.cancellations + CancelRows(rows));
      return Success(state.version);
    }

    method CommitRequest(expectedVersion: nat, order: Order, ghost before: Status) returns (r: Result<nat, ServiceError>)
      requires q in state.requests && state.requests[q] == H.Request(expectedVersion, before, order.status)
      requires order.domainEvents == Raised(before, order.status)
      modifies this`state, order`domainEvents
      ensures state == H.DoCommit(old(state), q)
      ensures r == if old(state).version == expectedVersion then Success(expectedVersion + 1) else Failure(VersionConflict)
    {
      RaisedRows(order.id, before, order.status, expectedVersion + 1);
      state := state.(requests := state.requests - {q});
      r := UpdateStatusWithEvents(expectedVersion, order);
    }

    /** The request is one read step and one commit step of the order's history. */
    method UpdateOrderStatus(target: Status) returns (r: Result<nat, ServiceError>, ghost seen: H.State, ghost met: H.State)
      requires Valid() && q !in state.requests
      modifies this
      ensures seen == H.Runs(old(state), env(old(awaits)))
      ensures r == Failure(NotFound) <==> !stored
      ensures r.Failure? && r.error.Rejected? <==> stored && !CanTransition(seen.status, target)
      ensures !stored || !CanTransition(seen.status, target) ==> state == seen
      ensures stored && CanTransition(seen.status, target) ==>
                && met == H.Runs(H.DoRead(seen, q, target), env(old(awaits) + 1)) && state == H.DoCommit(met, q)
                && (r.Success? <==> met.version == seen.version)
      ensures r.Success? ==>
                && r.value == state.version == seen.version + 1 && state.status == target
                && state.events == met.events + [H.StatusChanged(seen.status, target, seen.version + 1)]
    {
      Await();
      seen, met := state, state;
      if !stored { return Failure(NotFound), seen, met; }
      var order := new Order.Hydrate(orderId, userId, items, state.status, pricing, state.version);
      var expectedVersion := order.version;
      var moved := Transition(order, target);
      if moved.Failure? { return Failure(Rejected(moved.error)), seen, met; }
      state := H.DoRead(state, q, target);
      Await();
      met := state;
      r := CommitRequest(expectedVersion, order, seen.status);
    }
  }
}
