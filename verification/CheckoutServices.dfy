/**
 The checkout services as programs: the statements of the transaction, the reservation and pricing
 services that drive them, and the retrying service around the unit of work.  Each is tied to the
 functions and the call machine about which the properties are proved.
 */
module CheckoutServices {
  import opened Wrappers
  import opened Money
  import opened OrderStatus
  import opened OrderAggregate
  import opened CheckoutModel
  import opened CheckoutConservation
  import opened CheckoutQuote
  import opened CheckoutOnce
  import DomainEvents

  /** An open transaction: its statements see and change a private copy of the tables. */
  class CheckoutTransaction {
    var tables: Db

    constructor(db: Db)
      ensures tables == db
    {
      tables := db;
    }

    method LockProductsForUpdate(ids: set<ProductId>) returns (rows: map<ProductId, ProductRow>)
      ensures rows == map id | id in ids && id in tables.products :: tables.products[id]
    {
      rows := map id | id in ids && id in tables.products :: tables.products[id];
    }

    method DecrementProductStock(id: ProductId, expectedVersion: nat, quantity: int) returns (ok: bool)
      modifies this
      ensures ok == CanDecrement(old(tables), id, expectedVersion)
      ensures tables == if ok then old(tables).(products := old(tables).products[id := Decremented(old(tables).products[id], quantity)]) else old(tables)
    {
      ok := id in tables.products && tables.products[id].version == expectedVersion;
      if ok {
        var row := tables.products[id];
        tables := tables.(products := tables.products[id := row.(stock := row.stock - quantity, version := row.version + 1)]);
      }
    }

    method PersistProductEvent(id: ProductId, sourceVersion: nat)
      modifies this
      ensures tables == old(tables).(outbox := old(tables).outbox + [ProductUpdated(id, sourceVersion)])
    {
      tables := tables.(outbox := tables.outbox + [ProductUpdated(id, sourceVersion)]);
    }

    method FindDiscountByCode(code: Code) returns (found: Option<DiscountRow>)
      ensures found == if code in tables.discounts then Some(tables.discounts[code]) else None
    {
      found := if code in tables.discounts then Some(tables.discounts[code]) else None;
    }

    /** The guard is on the stored count, not on the count read before. */
    method IncrementDiscountUsage(code: Code, maxUses: Option<int>) returns (ok: bool)
      modifies this
      ensures ok == (code in old(tables).discounts && (maxUses.None? || old(tables).discounts[code].usedCount < maxUses.value))
      ensures tables == if ok then Consume(old(tables), code) else old(tables)
    {
      ok := code in tables.discounts && (maxUses.None? || tables.discounts[code].usedCount < maxUses.value);
      if ok {
        var row := tables.discounts[code];
        tables := tables.(discounts := tables.discounts[code := row.(usedCount := row.usedCount + 1)]);
      }
    }

    method ClearCartItems(userId: UserId)
      modifies this
      ensures tables == ClearCart(old(tables), userId)
    {
      tables := tables.(carts := tables.carts[userId := []]);
    }

    /** Insert the placed order and drain its single event into the outbox. */
    method SaveNewOrder(order: Order, r: Request) returns (saved: Result<(), CheckoutError>)
      requires order.id == r.orderId && order.userId == r.userId
      requires Total(order.Data()).Success? && order.domainEvents == [PlacedEvent(order.Data())]
      modifies this, order`domainEvents
      ensures match SaveOrder(old(tables), r, old(order.Data()))
              case Success(db) => saved.Success? && tables == db && order.domainEvents == []
              case Failure(e) => saved == Failure(e) && tables == old(tables)
      ensures order.Data() == old(order.Data())
    {
      var d := OrderData(order.items, order.status, order.pricing, order.hasBeenPlaced);
      if r.orderId in tables.orders || NumberTaken(tables, r.orderNumber) { return Failure(DatabaseFailure); }
      if KeyTaken(tables, r.userId, r.key) { return Failure(IdempotencyConflict); }
      tables := tables.(orders := tables.orders[r.orderId := RowOf(r, d)]);
      assert DomainEvents.Pending([order][..0], map[order.id := 0]) == [];
      var outbox := DomainEvents.PersistDomainEvents(tables.outbox, [order], map[order.id := 0]);
      tables := tables.(outbox := outbox);
      assert order in [order];
      saved := Success(());
    }
  }

  // ---------- stock ----------

  function Ids(items: seq<CartItem>): set<ProductId> { set k | 0 <= k < |items| :: items[k].productId }

  function LockedRows(db: Db, items: seq<CartItem>): map<ProductId, ProductRow> {
    map id | id in Ids(items) && id in db.products :: db.products[id]
  }

  class StockReservationService {
    constructor() {}

    method ValidateLines(ghost db: Db, locked: map<ProductId, ProductRow>, items: seq<CartItem>) returns (complaint: Option<CheckoutError>)
      requires locked == LockedRows(db, items)
      ensures complaint == CheckAll(db.products, items)
    {
      var k := 0;
      while k < |items|
        invariant 0 <= k <= |items| && CheckAll(db.products, items) == CheckAll(db.products, items[k..])
      {
        var item := items[k];
        assert items[k..][0] == item && items[k..][1..] == items[k + 1..] && item.productId in Ids(items);
        if item.quantity <= 0 { return Some(InvalidQuantity(item.productId)); }
        if item.productId !in locked { return Some(ProductNotFound(item.productId)); }
        var product := locked[item.productId];
        if !product.isActive { return Some(ProductInactive(item.productId)); }
        if product.stock < item.quantity { return Some(NotEnoughStock(item.productId)); }
        k := k + 1;
      }
      complaint := None;
    }

    method DecrementLines(tx: CheckoutTransaction, locked: map<ProductId, ProductRow>, items: seq<CartItem>) returns (r: Result<(), CheckoutError>)
      requires locked == LockedRows(tx.tables, items) && forall item | item in items :: item.productId in tx.tables.products
      modifies tx
      ensures match DecrementAll(old(tx.tables.products), old(tx.tables), items)
              case Success(db) => r.Success? && tx.tables == db
              case Failure(e) => r == Failure(e)
    {
      ghost var db := tx.tables;
      var k := 0;
      while k < |items|
        invariant 0 <= k <= |items|
        invariant DecrementAll(db.products, db, items) == DecrementAll(db.products, tx.tables, items[k..])
      {
        var item := items[k];
        assert items[k..][0] == item && items[k..][1..] == items[k + 1..] && item in items && item.productId in Ids(items);
        var version := locked[item.productId].version;
        var ok := tx.DecrementProductStock(item.productId, version, item.quantity);
        if !ok { return Failure(StockConflict(item.productId)); }
        tx.PersistProductEvent(item.productId, version + 1);
        k := k + 1;
      }
      r := Success(());
    }

    /** Validate every line, then decrement line by line under the versions read with the lock. */
    method ReserveStock(tx: CheckoutTransaction, items: seq<CartItem>) returns (r: Result<map<ProductId, ProductRow>, CheckoutError>)
      modifies tx
      ensures match CheckoutModel.ReserveStock(old(tx.tables), items)
              case Success(db) => r == Success(LockedRows(old(tx.tables), items)) && tx.tables == db
              case Failure(e) => r == Failure(e)
    {
      if |items| == 0 { return Failure(EmptyCart); }
      var locked := tx.LockProductsForUpdate(Ids(items));
      assert locked == LockedRows(tx.tables, items);
      var complaint := ValidateLines(tx.tables, locked, items);
      if complaint.Some? { return Failure(complaint.value); }
      CheckedItemsExist(tx.tables.products, items);
      var taken := DecrementLines(tx, locked, items);
      if taken.Failure? { return Failure(taken.error); }
      r := Success(locked);
    }
  }

  // ---------- pricing ----------

  class PricingService {
    constructor() {}

    method Price(tx: CheckoutTransaction, subtotal: Dong, code: Option<Code>, enabled: bool, consume: bool) returns (r: Result<Pricing, CheckoutError>)
      modifies tx
      ensures match CheckoutModel.Price(old(tx.tables), subtotal, code, enabled, consume)
              case Success((pricing, db)) => r == Success(pricing) && tx.tables == db
              case Failure(e) => r == Failure(e)
      ensures !consume ==> tx.tables == old(tx.tables)
      ensures r.Success? ==>
                && FairPrice(old(tx.tables.discounts), subtotal, code, enabled, r.value)
                && tx.tables == old(tx.tables).(discounts := tx.tables.discounts)
                && UsageAfter(old(tx.tables.discounts), tx.tables.discounts, code, enabled, consume)
    {
      ghost var before := tx.tables;
      var tax := Tax(subtotal);
      var shippingFee := ShippingFee(subtotal);
      var discountAmount := ZERO;
      var applied: Option<Code> := None;
      if code.Some? && code.value != "" && enabled {
        var found := tx.FindDiscountByCode(code.value);
        if found.None? || !found.value.isActive { return Failure(InvalidCode); }
        var discount := found.value;
        if discount.expiresAt.Some? && discount.expiresAt.value < tx.tables.now { return Failure(CodeExpired); }
        if discount.minOrderAmount.Some? && subtotal.amount < discount.minOrderAmount.value { return Failure(BelowMinimum); }
        if consume {
          var ok := tx.IncrementDiscountUsage(code.value, discount.maxUses);
          if !ok { return Failure(DiscountConflict); }
        } else if discount.maxUses.Some? && discount.usedCount >= discount.maxUses.value {
          return Failure(UsageLimitReached);
        }
        var raw := RawDiscount(discount, subtotal);
        if raw.Failure? { return Failure(OrderFailure(MoneyFailure(raw.error))); }
        discountAmount := if subtotal.amount < raw.value.amount then subtotal else raw.value;
        applied := code;
      }
      PricesAreRight(before, subtotal, code, enabled, consume);
      r := Success(Pricing(tax, shippingFee, discountAmount, applied));
    }
  }

  // ---------- the transaction body ----------

  lemma LockedLine(db: Db, d: OrderData, items: seq<CartItem>, k: nat)
    requires k < |items|
    ensures AddLine(LockedRows(db, items), d, items[k]) == AddLine(db.products, d, items[k])
  {
    assert items[k].productId in Ids(items);
  }

  /** Every line has a positive quantity, so the merged lines are in dong. */
  lemma {:induction false} LinesInDong(products: map<ProductId, ProductRow>, d: OrderData, items: seq<CartItem>)
    requires AddLines(products, d, items).Success? && AllVnd(d.items)
    ensures AllVnd(AddLines(products, d, items).value.items)
    decreases |items|
  {
    if items != [] { LinesInDong(products, AddLine(products, d, items[0]).value, items[1..]); }
  }

  lemma PlacedKeepsTotal(d: OrderData)
    requires Placed(d).Success?
    ensures Total(Placed(d).value).Success? && PlacedEvent(Placed(d).value) == PlacedEvent(d)
  {
  }

  class CheckoutService {
    const me: CallId
    const ask: Ask
    const env: nat -> seq<Action>
    const oracle: nat -> CheckoutOnce.Attempt
    const stockService: StockReservationService
    const pricingService: PricingService
    var awaits: nat
    var state: State
    ghost const initial: State
    ghost var trace: seq<Action>

    constructor(me: CallId, ask: Ask, env: nat -> seq<Action>, oracle: nat -> CheckoutOnce.Attempt, state: State)
      ensures this.me == me && this.ask == ask && this.env == env && this.oracle == oracle && this.state == initial == state && awaits == 0 && trace == []
    {
      this.me, this.ask, this.env, this.oracle := me, ask, env, oracle;
      stockService := new StockReservationService();
      pricingService := new PricingService();
      this.state, awaits, initial, trace := state, 0, state, [];
    }

    /** Everyone but this call acts during an await; all of it together is a run of the call machine. */
    ghost predicate Valid()
      reads this
    {
      && Inv(state) && state == RunCalls(initial, trace) && me in state.calls && state.calls[me].ask == ask
      && forall k: nat :: forall a | a in env(k) :: a.Advance? ==> a.call != me
    }

    function Phase(): CheckoutOnce.Phase
      requires me in state.calls
      reads this
    {
      state.calls[me].phase
    }

    method Await() returns (attempt: CheckoutOnce.Attempt)
      requires Valid()
      modifies this`state, this`awaits, this`trace
      ensures Valid() && Phase() == old(Phase()) && OrdersPersist(old(state.db), state.db)
      ensures state == RunCalls(old(state), env(old(awaits))) && awaits == old(awaits) + 1 && attempt == oracle(old(awaits))
    {
      OthersLeaveTheCall(state, env(awaits), me);
      RunsAppend(initial, trace, env(awaits));
      attempt := oracle(awaits);
      var gap := env(awaits);
      trace := trace + gap;
      state := RunCalls(state, gap);
      awaits := awaits + 1;
    }

    /** The next change of the state is this action of the machine. */
    ghost method Log(a: Action)
      requires state == RunCalls(initial, trace)
      modifies this`trace
      ensures Apply(state, a) == RunCalls(initial, trace)
    {
      RunsAppend(initial, trace, [a]);
      trace := trace + [a];
    }

    /** One step of this call that does not touch the tables. */
    method Do(attempt: CheckoutOnce.Attempt)
      requires Valid() && !Phase().Trying?
      modifies this`state, this`trace
      ensures Valid() && state == Apply(old(state), Advance(me, attempt)) && state.db == old(state.db)
      ensures Phase() == NextPhase(old(state.db), old(state.calls[me]), attempt).1
    {
      StepKeepsInv(state, Advance(me, attempt));
      Log(Advance(me, attempt));
      state := Apply(state, Advance(me, attempt));
    }

    /** The callback run inside the transaction. */
    method PlaceInTransaction(tx: CheckoutTransaction, r: Request) returns (placed: Result<OrderId, CheckoutError>)
      modifies tx
      ensures match PlaceOrder(old(tx.tables), r)
              case Success(db) => placed == Success(r.orderId) && tx.tables == db
              case Failure(e) => placed == Failure(e)
    {
      ghost var db := tx.tables;
      var locked := stockService.ReserveStock(tx, r.items);
      if locked.Failure? { return Failure(locked.error); }
      ghost var reserved := tx.tables;
      if !r.detailsValid { return Failure(InvalidDetails); }
      var order := new Order.Create(r.orderId, r.userId);
      var built := AddCartLines(order, db, locked.value, r.items);
      if built.Failure? { return Failure(built.error); }
      LinesInDong(db.products, DRAFT, r.items);
      var finished := PriceAndPlace(tx, order, r);
      if finished.Failure? { return Failure(finished.error); }
      var saved := tx.SaveNewOrder(order, r);
      if saved.Failure? { return Failure(saved.error); }
      tx.ClearCartItems(r.userId);
      placed := Success(r.orderId);
    }

    method AddCartLines(order: Order, ghost db: Db, locked: map<ProductId, ProductRow>, items: seq<CartItem>) returns (r: Result<(), CheckoutError>)
      requires locked == LockedRows(db, items) && order.Data() == DRAFT
      modifies order`items
      ensures match AddLines(db.products, DRAFT, items)
              case Success(d) => r.Success? && order.Data() == d
              case Failure(e) => r == Failure(e)
    {
      var k := 0;
      while k < |items|
        invariant 0 <= k <= |items| && AddLines(db.products, DRAFT, items) == AddLines(db.products, order.Data(), items[k..])
      {
        var item := items[k];
        LockedLine(db, order.Data(), items, k);
        assert items[k..][0] == item && items[k..][1..] == items[k + 1..];
        if item.productId !in locked { return Failure(ProductNotFound(item.productId)); }
        var product := locked[item.productId];
        var added := order.AddItem(item.productId, product.name, item.quantity, product.price);
        if added.Failure? { return Failure(OrderFailure(added.error)); }
        k := k + 1;
      }
      r := Success(());
    }

    method PriceAndPlace(tx: CheckoutTransaction, order: Order, r: Request) returns (placed: Result<(), CheckoutError>)
      requires AllVnd(order.items) && order.domainEvents == []
      modifies tx, order
      ensures match Finish(old(order.Data()), old(tx.tables), r)
              case Success((d, db)) =>
                placed.Success? && order.Data() == d && tx.tables == db && Total(d).Success? && order.domainEvents == [PlacedEvent(d)]
              case Failure(e) => placed == Failure(e)
    {
      var subtotal := order.ComputeSubtotal();
      if subtotal.Failure? { return Failure(OrderFailure(subtotal.error)); }
      SubtotalIsWorth(order.items);
      var pricing := pricingService.Price(tx, subtotal.value, r.code, r.discountsEnabled, true);
      if pricing.Failure? { return Failure(pricing.error); }
      var applied := order.ApplyPricing(pricing.value);
      if applied.Failure? { return Failure(OrderFailure(applied.error)); }
      if r.expectedTotal.Some? {
        var total := Total(OrderData(order.items, order.status, order.pricing, order.hasBeenPlaced));
        if total.Failure? { return Failure(OrderFailure(total.error)); }
        if total.value.amount != r.expectedTotal.value { return Failure(TotalChanged); }
      }
      ghost var priced := order.Data();
      var result := order.Place();
      if result.Failure? { return Failure(OrderFailure(result.error)); }
      PlacedKeepsTotal(priced);
      placed := Success(());
    }

    /** What one attempt answers in the state it meets. */
    function Answer(db: Db, items: seq<CartItem>, a: CheckoutOnce.Attempt): Result<OrderId, CheckoutError> {
      match a.fate
      case SerializationFailure => Failure(TransactionConflict)
      case ConnectionLost(_) => Failure(DatabaseFailure)
      case Answered =>
        var r := Request(ask.userId, ask.key, items, ask.code, a.discountsEnabled, ask.expectedTotal, a.orderId, a.orderNumber, ask.detailsValid);
        match PlaceOrder(db, r)
        case Success(_) => Success(a.orderId)
        case Failure(e) => Failure(e)
    }

    /** The state after an await and a step of this call. */
    ghost function Stepped(s: State, from: nat): State {
      Apply(RunCalls(s, env(from)), Advance(me, oracle(from)))
    }

    /** What `n` attempts answer that are made one after another, each in the state it meets. */
    ghost function AnswersOf(s: State, from: nat, items: seq<CartItem>, n: nat): seq<Result<OrderId, CheckoutError>>
      decreases n
    {
      if n == 0 then [] else [Answer(RunCalls(s, env(from)).db, items, oracle(from))] + AnswersOf(Stepped(s, from), from + 1, items, n - 1)
    }

    method MoveTo(db: Db, phase: CheckoutOnce.Phase)
      requires me in state.calls
      modifies this`state
      ensures state == State(db, old(state.calls)[me := old(state.calls)[me].(phase := phase)])
    {
      state := State(db, state.calls[me := state.calls[me].(phase := phase)]);
    }

    function Outcome(items: seq<CartItem>, retries: nat, r: Result<OrderId, CheckoutError>): CheckoutOnce.Phase {
      if r.Success? then Fetching(r.value) else AfterFailure(ask, items, retries, r.error)
    }

    /** `unitOfWork.run`: all of the transaction's changes, or none of them. */
    method RunTransaction(items: seq<CartItem>, ghost retries: nat, attempt: CheckoutOnce.Attempt) returns (r: Result<OrderId, CheckoutError>, db: Db)
      ensures (db, Outcome(items, retries, r)) == Try(state.db, ask, items, retries, attempt)
      ensures r == Answer(state.db, items, attempt)
    {
      var tx := new CheckoutTransaction(state.db);
      var placed := PlaceInTransaction(tx, RequestOf(ask, items, attempt));
      match attempt.fate
      case SerializationFailure => r, db := Failure(TransactionConflict), state.db;
      case ConnectionLost(committed) => r, db := Failure(DatabaseFailure), if committed && placed.Success? then tx.tables else state.db;
      case Answered => r, db := placed, if placed.Success? then tx.tables else state.db;
    }

    method AttemptOnce(items: seq<CartItem>, retries: nat) returns (r: Result<OrderId, CheckoutError>)
      requires Valid() && Phase() == Trying(items, retries)
      modifies this`state, this`awaits, this`trace
      ensures Valid() && OrdersPersist(old(state.db), state.db) && awaits == old(awaits) + 1
      ensures state == Stepped(old(state), old(awaits)) && Phase() == Outcome(items, retries, r)
      ensures [r] == AnswersOf(old(state), old(awaits), items, 1)
    {
      ghost var before := state.db;
      var attempt := Await();
      var db;
      r, db := RunTransaction(items, retries, attempt);
      TryIsAStep(state, me, ask, items, retries, attempt);
      PersistTransitive(before, state.db, db);
      Log(Advance(me, attempt));
      MoveTo(db, Outcome(items, retries, r));
    }

    /** The errors that are worth another attempt. */
    predicate Retriable(r: Result<OrderId, CheckoutError>) {
      r.Failure? && (r.error.StockConflict? || r.error.DiscountConflict? || r.error.TransactionConflict?)
    }

    /** One attempt after the other, up to the first answer that is no conflict; `limit` are all there are. */
    predicate FirstSettled(answers: seq<Result<OrderId, CheckoutError>>, limit: int) {
      && 1 <= |answers| <= limit
      && (forall j :: 0 <= j < |answers| - 1 ==> Retriable(answers[j]))
      && (Retriable(answers[|answers| - 1]) ==> |answers| == limit)
    }

    /** These are the answers of the attempts made from here on, the last one is the result, and none came after it was settled. */
    ghost predicate Settles(s: State, from: nat, items: seq<CartItem>, answers: seq<Result<OrderId, CheckoutError>>, limit: int, r: Result<OrderId, CheckoutError>) {
      && FirstSettled(answers, limit) && r == answers[|answers| - 1]
      && answers == AnswersOf(s, from, items, |answers|)
    }

    lemma SettlesAtOnce(s: State, from: nat, items: seq<CartItem>, limit: int, r: Result<OrderId, CheckoutError>)
      requires [r] == AnswersOf(s, from, items, 1) && limit >= 1 && (Retriable(r) ==> limit == 1)
      ensures Settles(s, from, items, [r], limit, r)
    {
    }

    lemma SettlesLater(s: State, from: nat, next: State, nextFrom: nat, items: seq<CartItem>, first: Result<OrderId, CheckoutError>, later: seq<Result<OrderId, CheckoutError>>, limit: int, r: Result<OrderId, CheckoutError>)
      requires [first] == AnswersOf(s, from, items, 1) && Retriable(first)
      requires next == Stepped(s, from) && nextFrom == from + 1 && Settles(next, nextFrom, items, later, limit, r)
      ensures Settles(s, from, items, [first] + later, limit + 1, r)
    {
      assert [first] + later == AnswersOf(s, from, items, |later| + 1);
    }

    /**
     Attempt until one is not answered by a conflict, at most six times in all: a success is returned,
     any other error surfaces at once, and a conflict surfaces only after the sixth attempt.  The
     back-off is an await like any other.
     */
    method ExecuteWithRetry(items: seq<CartItem>, retryCount: nat) returns (r: Result<OrderId, CheckoutError>, ghost answers: seq<Result<OrderId, CheckoutError>>)
      requires Valid() && Phase() == Trying(items, retryCount) && retryCount <= 5
      modifies this`state, this`awaits, this`trace
      ensures Valid() && OrdersPersist(old(state.db), state.db)
      ensures match r
              case Success(id) => Phase() == Fetching(id)
              case Failure(e) => Phase() == if e.IdempotencyConflict? && ask.key.Some? then Relooking else Threw(e)
      ensures awaits == old(awaits) + |answers| && Settles(old(state), old(awaits), items, answers, 6 - retryCount, r)
      decreases MAX_RETRIES - retryCount
    {
      ghost var before, from := state, awaits;
      r := AttemptOnce(items, retryCount);
      answers := [r];
      if r.Failure? && IsConflict(r.error) && retryCount < MAX_RETRIES {
        ghost var next, nextFrom, first, later := state, awaits, r, [];
        r, later := ExecuteWithRetry(items, retryCount + 1);
        PersistTransitive(before.db, next.db, state.db);
        SettlesLater(before, from, next, nextFrom, items, first, later, 5 - retryCount, r);
        answers := [first] + later;
      } else {
        SettlesAtOnce(before, from, items, 6 - retryCount, r);
      }
    }

    /** The call after its first lookup, which it makes only with a key. */
    ghost function LookedUp(s: State, from: nat): State {
      if ask.key.Some? then Stepped(s, from) else Apply(s, Advance(me, Nothing()))
    }

    function Lookups(): nat { if ask.key.Some? then 1 else 0 }

    /** The call after it has read its cart. */
    ghost function CartRead(s: State, from: nat): State {
      Stepped(LookedUp(s, from), from + Lookups())
    }

    method LookUp() returns (found: Option<OrderId>)
      requires Valid() && (Phase().Looking? || Phase().Relooking?)
      modifies this`state, this`awaits, this`trace
      ensures Valid() && OrdersPersist(old(state.db), state.db) && awaits <= old(awaits) + 1
      ensures ask.key.Some? ==> found == FindByKey(state.db, ask.userId, ask.key)
      ensures old(Phase()).Relooking? ==> found.Some?
      ensures Phase() == if found.Some? then Returned(found.value, true) else ReadingCart
      ensures awaits == old(awaits) + Lookups() && (ask.key.None? ==> found.None?)
      ensures state == LookedUp(old(state), old(awaits))
      ensures state.db == if ask.key.Some? then RunCalls(old(state), env(old(awaits))).db else old(state.db)
    {
      if ask.key.None? {
        Do(Nothing());
        return None;
      }
      var attempt := Await();
      found := FindByKey(state.db, ask.userId, ask.key);
      Do(attempt);
    }

    method ReadCart() returns (items: seq<CartItem>)
      requires Valid() && Phase().ReadingCart?
      modifies this`state, this`awaits, this`trace
      ensures Valid() && OrdersPersist(old(state.db), state.db) && awaits <= old(awaits) + 1
      ensures awaits == old(awaits) + 1 && state == Stepped(old(state), old(awaits))
      ensures items == if ask.userId in state.db.carts then state.db.carts[ask.userId] else []
      ensures Phase() == if items == [] then Threw(EmptyCart) else Trying(items, 0)
    {
      var attempt := Await();
      items := CartOf(state.db, ask.userId);
      Do(attempt);
    }

    /** The created order is always found again. */
    method FetchOrder(id: OrderId)
      requires Valid() && Phase() == Fetching(id)
      modifies this`state, this`awaits, this`trace
      ensures Valid() && OrdersPersist(old(state.db), state.db) && awaits <= old(awaits) + 1
      ensures Phase() == Returned(id, false) && state.db == RunCalls(old(state), env(old(awaits))).db
    {
      var attempt := Await();
      assert CallOk(state.db, state.calls[me]);
      Do(attempt);
    }

    /** The first attempt that is not answered by a conflict decides, at most the sixth. */
    ghost predicate Decides(s: State, from: nat, items: seq<CartItem>, answers: seq<Result<OrderId, CheckoutError>>, r: Result<(OrderId, bool), CheckoutError>) {
      && answers == AnswersOf(s, from, items, |answers|) && FirstSettled(answers, 6)
      && match answers[|answers| - 1]
         case Success(id) => r == Success((id, false))
         case Failure(e) => if e.IdempotencyConflict? then r.Success? && r.value.1 else r == Failure(e)
    }

    /** Lookup after a key conflict, or fetch of the new order. */
    method Conclude(placed: Result<OrderId, CheckoutError>) returns (r: Result<(OrderId, bool), CheckoutError>)
      requires Valid()
      requires match placed
               case Success(id) => Phase() == Fetching(id)
               case Failure(e) => Phase() == if e.IdempotencyConflict? && ask.key.Some? then Relooking else Threw(e)
      modifies this`state, this`awaits, this`trace
      ensures Valid() && OrdersPersist(old(state.db), state.db) && awaits <= old(awaits) + 1
      ensures match r
              case Success((id, idempotent)) =>
                Phase() == Returned(id, idempotent) && id in state.db.orders && Carries(state.db.orders[id], ask.userId, ask.key)
              case Failure(e) => Phase() == Threw(e) && !Internal(e)
      ensures match placed
              case Success(id) => r == Success((id, false)) && state.db == RunCalls(old(state), env(old(awaits))).db
              case Failure(e) => if e.IdempotencyConflict? then r.Success? && r.value.1 else r == Failure(e) && state == old(state)
    {
      assert CallOk(state.db, state.calls[me]);
      if placed.Success? {
        FetchOrder(placed.value);
        assert CallOk(state.db, state.calls[me]);
        return Success((placed.value, false));
      }
      if placed.error.IdempotencyConflict? && ask.key.Some? {
        var existing := LookUp();
        assert CallOk(state.db, state.calls[me]);
        return Success((existing.value, true));
      }
      PersistReflexive(state.db);
      return Failure(placed.error);
    }

    method PlaceOrConclude(items: seq<CartItem>) returns (r: Result<(OrderId, bool), CheckoutError>, ghost answers: seq<Result<OrderId, CheckoutError>>)
      requires Valid() && Phase() == Trying(items, 0)
      modifies this`state, this`awaits, this`trace
      ensures Valid() && OrdersPersist(old(state.db), state.db) && awaits <= old(awaits) + 7
      ensures match r
              case Success((id, idempotent)) =>
                Phase() == Returned(id, idempotent) && id in state.db.orders && Carries(state.db.orders[id], ask.userId, ask.key)
              case Failure(e) => Phase() == Threw(e) && !Internal(e)
      ensures Decides(old(state), old(awaits), items, answers, r)
    {
      var placed;
      placed, answers := ExecuteWithRetry(items, 0);
      ghost var mid := state.db;
      r := Conclude(placed);
      PersistTransitive(old(state.db), mid, state.db);
    }

    /** An empty cart is refused; otherwise the attempts decide. */
    ghost predicate DecidesFrom(ready: State, from: nat, answers: seq<Result<OrderId, CheckoutError>>, r: Result<(OrderId, bool), CheckoutError>) {
      var items := if ask.userId in ready.db.carts then ready.db.carts[ask.userId] else [];
      if items == [] then r == Failure(EmptyCart) else Decides(ready, from, items, answers, r)
    }

    method PlaceCart() returns (r: Result<(OrderId, bool), CheckoutError>, ghost answers: seq<Result<OrderId, CheckoutError>>)
      requires Valid() && Phase() == ReadingCart
      modifies this`state, this`awaits, this`trace
      ensures Valid() && OrdersPersist(old(state.db), state.db) && awaits <= old(awaits) + 8
      ensures match r
              case Success((id, idempotent)) =>
                Phase() == Returned(id, idempotent) && id in state.db.orders && Carries(state.db.orders[id], ask.userId, ask.key)
              case Failure(e) => Phase() == Threw(e) && !Internal(e)
      ensures DecidesFrom(Stepped(old(state), old(awaits)), old(awaits) + 1, answers, r)
    {
      ghost var before := state.db;
      var items := ReadCart();
      if items == [] { return Failure(EmptyCart), []; }
      ghost var mid := state.db;
      r, answers := PlaceOrConclude(items);
      PersistTransitive(before, mid, state.db);
    }

    /**
     A successful checkout returns an order of this user under this key that is stored and keeps
     its amounts, and no internal conflict surfaces.  A key that has its order already is answered
     with it, an empty cart is refused, and otherwise the first attempt that does not meet a conflict
     decides, at most the sixth.
     */
    method Checkout() returns (r: Result<(OrderId, bool), CheckoutError>, ghost answers: seq<Result<OrderId, CheckoutError>>)
      requires Valid() && Phase() == Looking
      modifies this`state, this`awaits, this`trace
      ensures Valid() && OrdersPersist(old(state.db), state.db) && awaits <= old(awaits) + 9
      ensures match r
              case Success((id, idempotent)) =>
                Phase() == Returned(id, idempotent) && id in state.db.orders && Carries(state.db.orders[id], ask.userId, ask.key)
              case Failure(e) => Phase() == Threw(e) && !Internal(e)
      ensures var met := RunCalls(old(state), env(old(awaits))).db;
              var existing := if ask.key.Some? then FindByKey(met, ask.userId, ask.key) else None;
              if existing.Some? then r == Success((existing.value, true))
              else DecidesFrom(CartRead(old(state), old(awaits)), old(awaits) + Lookups() + 1, answers, r)
    {
      ghost var before := state.db;
      var existing := LookUp();
      ghost var mid := state.db;
      if existing.Some? {
        assert CallOk(state.db, state.calls[me]);
        return Success((existing.value, true)), [];
      }
      r, answers := PlaceCart();
      PersistTransitive(before, mid, state.db);
    }

    method SumLines(products: map<ProductId, ProductRow>, items: seq<CartItem>) returns (r: Result<Money, CheckoutError>)
      ensures r == QuoteSum(products, items)
    {
      var subtotal: Money := ZERO;
      var k := 0;
      while k < |items|
        invariant 0 <= k <= |items| && QuoteSum(products, items[..k]) == Success(subtotal)
      {
        var line := QuoteLine(products, Success(subtotal), items[k]);
        assert items[..k + 1][..k] == items[..k];
        if line.Failure? {
          QuoteStops(products, items, k + 1);
          return line;
        }
        subtotal := line.value;
        k := k + 1;
      }
      assert items[..k] == items;
      r := Success(subtotal);
    }

    /** The quote reads the cart with its products, and prices it in a later transaction. */
    method Quote(code: Option<Code>, enabled: bool) returns (r: Result<Quoted, CheckoutError>, ghost seen: Db)
      requires Valid()
      modifies this`state, this`awaits, this`trace
      ensures Valid()
      ensures seen == RunCalls(old(state), env(old(awaits))).db
      ensures r == CheckoutQuote.Quote(seen.products, state.db, CartOf(seen, ask.userId), code, enabled)
    {
      var _ := Await();
      seen := state.db;
      var items := CartOf(state.db, ask.userId);
      if |items| == 0 { return Failure(EmptyCart), seen; }
      var subtotal := SumLines(state.db.products, items);
      if subtotal.Failure? { return Failure(subtotal.error), seen; }
      QuoteSumIsWorth(state.db.products, items);
      var _ := Await();
      r := PriceQuote(subtotal.value, code, enabled);
    }

    method PriceQuote(subtotal: Dong, code: Option<Code>, enabled: bool) returns (r: Result<Quoted, CheckoutError>)
      ensures r == QuotePriced(state.db, subtotal, code, enabled)
    {
      var tx := new CheckoutTransaction(state.db);
      var pricing := pricingService.Price(tx, subtotal, code, enabled, false);
      if pricing.Failure? { return Failure(pricing.error); }
      var total := Payable(subtotal, pricing.value);
      if total.Failure? { return Failure(OrderFailure(MoneyFailure(total.error))); }
      r := Success(Quoted(subtotal, pricing.value, total.value));
    }
  }

  lemma TryIsAStep(s: State, me: CallId, ask: Ask, items: seq<CartItem>, retries: nat, attempt: CheckoutOnce.Attempt)
    requires Inv(s) && me in s.calls && s.calls[me] == Call(ask, Trying(items, retries))
    ensures var (db, phase) := Try(s.db, ask, items, retries, attempt);
            var s' := State(db, s.calls[me := s.calls[me].(phase := phase)]);
            s' == Apply(s, Advance(me, attempt)) && Inv(s') && OrdersPersist(s.db, db)
  {
    StepKeepsInv(s, Advance(me, attempt));
  }

  /** A step that needs no answer. */
  function Nothing(): CheckoutOnce.Attempt { CheckoutOnce.Attempt.Attempt(0, 0, false, Answered) }

  lemma PersistReflexive(db: Db)
    ensures OrdersPersist(db, db)
  {
    forall id | id in db.orders ensures Kept(db, db, id) {}
  }

  lemma PersistTransitive(a: Db, b: Db, c: Db)
    requires OrdersPersist(a, b) && OrdersPersist(b, c)
    ensures OrdersPersist(a, c)
  {
    forall id | id in a.orders ensures Kept(a, c, id) { assert Kept(a, b, id) && Kept(b, c, id); }
  }

  lemma {:induction false} QuoteStops(products: map<ProductId, ProductRow>, items: seq<CartItem>, k: nat)
    requires k <= |items| && QuoteSum(products, items[..k]).Failure?
    ensures QuoteSum(products, items) == QuoteSum(products, items[..k])
    decreases |items| - k
  {
    if k < |items| {
      assert items[..k + 1][..k] == items[..k];
      QuoteStops(products, items, k + 1);
    } else {
      assert items[..k] == items;
    }
  }
}
