/**
 The product catalog: every product write raises the version, and handlers read the product and
 then write the projection, interleaved with each other and with further product writes.
 */
module CatalogProjection {
  import opened Wrappers
  import P = ProjectionWriter

  /** `history[k]` holds the product's fields at version `k`; `handles` maps a handler to its event's version. */
  datatype State<V> = State(history: seq<V>, projection: P.State<V>, handles: map<nat, nat>)

  datatype Action<V> =
    | Write(fields: V)
    | Handle(p: nat, eventVersion: nat)
    | Step(p: nat, slugTaken: bool)
    | Fail(p: nat)

  function Version<V>(s: State<V>): nat
    requires s.history != []
  {
    |s.history| - 1
  }

  function Current<V>(s: State<V>): P.Snapshot<V>
    requires s.history != []
  {
    P.Snapshot(Version(s), s.history[Version(s)])
  }

  function Project<V>(s: State<V>, a: P.Action<V>): State<V> {
    s.(projection := P.Apply(s.projection, a))
  }

  function Apply<V>(s: State<V>, a: Action<V>): State<V>
    requires s.history != []
  {
    match a
    case Write(fields) => s.(history := s.history + [fields])
    case Handle(p, k) =>
      // an event exists only once its version has been written
      if p in s.projection.procs || k > Version(s) then s
      else Project(s, P.Spawn(p, P.SnapshotWriter, Current(s))).(handles := s.handles[p := k])
    case Step(p, slugTaken) => Project(s, P.Step(p, slugTaken))
    case Fail(p) => Project(s, P.Fail(p))
  }

  function Runs<V>(s: State<V>, actions: seq<Action<V>>): State<V>
    requires s.history != []
    decreases |actions|
  {
    if actions == [] then s else Runs(Apply(s, actions[0]), actions[1..])
  }

  function Created<V>(fields: V): State<V> { State([fields], P.Initial(None), map[]) }

  predicate Genuine<V(==)>(history: seq<V>, snapshot: P.Snapshot<V>) {
    snapshot.version < |history| && snapshot.value == history[snapshot.version]
  }

  ghost predicate Inv<V>(s: State<V>) {
    && s.history != [] && P.Inv(s.projection)
    && (s.projection.row.Some? ==> Genuine(s.history, s.projection.row.value))
    && (forall p :: p in s.projection.procs ==>
          && Genuine(s.history, s.projection.procs[p].snapshot)
          && s.projection.procs[p].kind.SnapshotWriter?
          && p in s.handles && s.handles[p] <= s.projection.procs[p].snapshot.version)
  }

  lemma ProjectKeepsInv<V>(s: State<V>, a: P.Action<V>)
    requires Inv(s) && !a.Spawn?
    ensures Inv(Project(s, a))
  {
    P.StepKeepsInv(s.projection, a);
    var t, t' := s.projection, P.Apply(s.projection, a);
    forall p | p in t'.procs
      ensures p in t.procs && t'.procs[p].snapshot == t.procs[p].snapshot && t'.procs[p].kind == t.procs[p].kind {}
    assert t'.row == t.row || (a.p in t.procs && t'.row == Some(t.procs[a.p].snapshot));
  }

  lemma StepKeepsInv<V>(s: State<V>, a: Action<V>)
    requires Inv(s)
    ensures Inv(Apply(s, a)) && s.history <= Apply(s, a).history
  {
    match a
    case Write(fields) =>
    case Handle(p, k) =>
      P.StepKeepsInv(s.projection, P.Spawn(p, P.SnapshotWriter, Current(s)));
    case Step(p, slugTaken) => ProjectKeepsInv(s, P.Step(p, slugTaken));
    case Fail(p) => ProjectKeepsInv(s, P.Fail(p));
  }

  lemma {:induction false} RunKeepsInv<V>(s: State<V>, actions: seq<Action<V>>)
    requires Inv(s)
    ensures Inv(Runs(s, actions))
    decreases |actions|
  {
    if actions != [] {
      StepKeepsInv(s, actions[0]);
      RunKeepsInv(Apply(s, actions[0]), actions[1..]);
    }
  }

  /**
   Over every interleaving: the projected fields are the product's at the projected version;
   handling an event leaves the projection at that event's version or newer; and handling the
   newest event makes projection and product agree.
   */
  lemma CatalogFollowsProduct<V>(fields: V, actions: seq<Action<V>>, p: nat)
    ensures var s := Runs(Created(fields), actions);
            && s.history != []
            && (s.projection.row.Some? ==> Genuine(s.history, s.projection.row.value))
            && (p in s.projection.procs && s.projection.procs[p].pc.Returned? ==>
                  && p in s.handles && P.AtLeast(s.projection.row, s.handles[p])
                  && (s.handles[p] == Version(s) ==> s.projection.row == Some(Current(s))))
  {
    RunKeepsInv(Created(fields), actions);
    var s := Runs(Created(fields), actions);
    if p in s.projection.procs { assert P.ProcessOk(s.projection, s.projection.procs[p]); }
  }

  /** An undisturbed handling of any event, with the slug free, returns and leaves the projection current. */
  lemma UndisturbedHandlingIsCurrent<V>(s: State<V>, p: nat, k: nat)
    requires Inv(s) && p !in s.projection.procs && k <= Version(s)
    ensures var step := Step(p, false);
            var s' := Apply(Apply(Apply(Apply(Apply(s, Handle(p, k)), step), step), step), step);
            && p in s'.projection.procs && s'.projection.procs[p].pc.Returned?
            && s'.history == s.history && s'.projection.row == Some(Current(s))
  {
    P.UndisturbedWritersReturn(s.projection, p, Current(s));
  }

  // ---------- the write side as an object ----------

  datatype Product = Product(version: nat, name: string, price: nat, stock: int, slug: string, isActive: bool)

  /** Fields left out of an update keep their value. */
  datatype Changes = Changes(name: Option<string>, price: Option<nat>, stock: Option<int>, slug: Option<string>)

  datatype ProductEvent = ProductEvent(productId: nat, sourceVersion: nat)

  function OrElse<T>(o: Option<T>, old_: T): T { if o.Some? then o.value else old_ }

  function Changed(p: Product, c: Changes): Product {
    Product(p.version + 1, OrElse(c.name, p.name), OrElse(c.price, p.price), OrElse(c.stock, p.stock),
            OrElse(c.slug, p.slug), p.isActive)
  }

  /** The aggregate's events, all stamped with the version the write produced. */
  function Stamped(id: nat, version: nat, count: nat): seq<ProductEvent> {
    seq(count, _ => ProductEvent(id, version))
  }

  class ProductsRepository {
    var products: map<nat, Product>
    var outbox: seq<ProductEvent>

    constructor()
      ensures products == map[] && outbox == []
    {
      products, outbox := map[], [];
    }

    /** No event claims a version its product has not reached, so a handler reads at least that version. */
    ghost predicate Valid()
      reads this
    {
      forall e :: e in outbox ==> e.productId in products && e.sourceVersion <= products[e.productId].version
    }

    /** So many new events of the product, each stamped with the version it has now. */
    ghost predicate Announced(before: seq<ProductEvent>, after: seq<ProductEvent>, id: nat, events: nat)
      reads this`products
    {
      && id in products && |after| == |before| + events && after[..|before|] == before
      && forall k :: |before| <= k < |after| ==> after[k] == ProductEvent(id, products[id].version)
    }

    method CreateWithEvents(id: nat, product: Product, events: nat) returns (created: bool)
      requires Valid()
      modifies this
      ensures Valid() && created == (id !in old(products))
      ensures products == if created then old(products)[id := product.(version := 0, isActive := true)] else old(products)
      ensures if created then Announced(old(outbox), outbox, id, events) else outbox == old(outbox)
    {
      created := id !in products;
      if created {
        products := products[id := product.(version := 0, isActive := true)];
        outbox := outbox + Stamped(id, 0, events);
      }
    }

    /** `update` and `updateWithEvents` (no events, or the aggregate's): always one version up. */
    method UpdateWithEvents(id: nat, changes: Changes, events: nat) returns (updated: bool)
      requires Valid()
      modifies this
      ensures Valid() && updated == (id in old(products))
      ensures updated ==>
                && id in products && products == old(products)[id := products[id]] && Announced(old(outbox), outbox, id, events)
                && var before, after := old(products)[id], products[id];
                   && after.version == before.version + 1 && after.isActive == before.isActive
                   && after.name == (if changes.name.Some? then changes.name.value else before.name)
                   && after.price == (if changes.price.Some? then changes.price.value else before.price)
                   && after.stock == (if changes.stock.Some? then changes.stock.value else before.stock)
                   && after.slug == (if changes.slug.Some? then changes.slug.value else before.slug)
      ensures !updated ==> products == old(products) && outbox == old(outbox)
    {
      updated := id in products;
      if updated {
        var product := Changed(products[id], changes);
        products := products[id := product];
        outbox := outbox + Stamped(id, product.version, events);
      }
    }

    method SetActiveWithEvents(id: nat, isActive: bool, events: nat) returns (updated: bool)
      requires Valid()
      modifies this
      ensures Valid() && updated == (id in old(products))
      ensures updated ==> products == old(products)[id := old(products)[id].(isActive := isActive, version := old(products)[id].version + 1)]
      ensures updated ==> Announced(old(outbox), outbox, id, events)
      ensures !updated ==> products == old(products) && outbox == old(outbox)
    {
      updated := id in products;
      if updated {
        var product := products[id].(isActive := isActive, version := products[id].version + 1);
        products := products[id := product];
        outbox := outbox + Stamped(id, product.version, events);
      }
    }
  }
}
