/** Writing the events of drained aggregates to the outbox, stamped with source versions. */
module DomainEvents {
  import opened Wrappers
  import opened OrderAggregate
  import opened CheckoutModel

  function Stamp(versions: map<OrderId, nat>, id: OrderId): Option<nat> {
    if id in versions then Some(versions[id]) else None
  }

  function Rows(id: OrderId, events: seq<OrderEvent>, version: Option<nat>): (rows: seq<OutboxEvent>)
    ensures |rows| == |events| && forall k :: 0 <= k < |events| ==> rows[k] == OrderRecorded(id, events[k], version)
  {
    seq(|events|, k requires 0 <= k < |events| => OrderRecorded(id, events[k], version))
  }

  /** The buffers of all aggregates, in the order in which they are given. */
  ghost function Pending(aggregates: seq<Order>, versions: map<OrderId, nat>): seq<OutboxEvent>
    reads set o | o in aggregates
  {
    if aggregates == [] then []
    else
      var n := |aggregates| - 1;
      Pending(aggregates[..n], versions) + Rows(aggregates[n].id, aggregates[n].domainEvents, Stamp(versions, aggregates[n].id))
  }

  function Buffered(aggregates: seq<Order>): nat
    reads set o | o in aggregates
  {
    if aggregates == [] then 0 else Buffered(aggregates[..|aggregates| - 1]) + |aggregates[|aggregates| - 1].domainEvents|
  }

  /** The pending rows are as many as the buffered events, and each event is among them under its source version. */
  lemma {:induction false} EveryEventIsPending(aggregates: seq<Order>, versions: map<OrderId, nat>, k: nat, j: nat)
    requires k < |aggregates| && j < |aggregates[k].domainEvents|
    ensures |Pending(aggregates, versions)| == Buffered(aggregates)
    ensures var o := aggregates[k];
            OrderRecorded(o.id, o.domainEvents[j], if o.id in versions then Some(versions[o.id]) else None) in Pending(aggregates, versions)
    decreases |aggregates|
  {
    var n := |aggregates| - 1;
    PendingCount(aggregates, versions);
    var rows := Rows(aggregates[n].id, aggregates[n].domainEvents, Stamp(versions, aggregates[n].id));
    if k < n {
      assert aggregates[..n][k] == aggregates[k];
      EveryEventIsPending(aggregates[..n], versions, k, j);
    } else {
      assert rows[j] in rows;
    }
  }

  lemma {:induction false} PendingCount(aggregates: seq<Order>, versions: map<OrderId, nat>)
    ensures |Pending(aggregates, versions)| == Buffered(aggregates)
    decreases |aggregates|
  {
    if aggregates != [] { PendingCount(aggregates[..|aggregates| - 1], versions); }
  }

  /** Every buffered event reaches the outbox once, in order, and every buffer is left empty. */
  method PersistDomainEvents(outbox: seq<OutboxEvent>, aggregates: seq<Order>, versions: map<OrderId, nat>)
    returns (outbox': seq<OutboxEvent>)
    modifies (set o | o in aggregates)`domainEvents
    ensures outbox' == outbox + old(Pending(aggregates, versions))
    ensures forall o :: o in aggregates ==> o.domainEvents == []
  {
    outbox' := outbox;
    for k := 0 to |aggregates|
      invariant outbox' == outbox + Pending(aggregates[..k], versions)
    {
      assert aggregates[..k + 1][..k] == aggregates[..k];
      outbox' := outbox' + Rows(aggregates[k].id, aggregates[k].domainEvents, Stamp(versions, aggregates[k].id));
    }
    assert aggregates[..|aggregates|] == aggregates;
    for k := 0 to |aggregates|
      invariant forall j :: 0 <= j < k ==> aggregates[j].domainEvents == []
    {
      var _ := aggregates[k].PullEvents();
    }
  }
}
