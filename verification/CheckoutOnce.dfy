/**
 Exactly-once checkout per user and idempotency key.  The key lookup and the cart read happen
 outside the transaction, so a call is a sequence of steps between which other calls, cart edits
 and catalogue edits may run.
 */
module CheckoutOnce {
  import opened Wrappers
  import opened OrderStatus
  import opened OrderAggregate
  import opened CheckoutModel
  import opened CheckoutConservation
  import opened Sums

  type CallId = nat

  const MAX_RETRIES: nat := 5

  datatype Ask = Ask(userId: UserId, key: Option<Key>, code: Option<Code>, expectedTotal: Option<int>, detailsValid: bool)

  datatype Phase =
    | Looking
    | ReadingCart
    | Trying(items: seq<CartItem>, retries: nat)
    | Relooking
    | Fetching(orderId: OrderId)
    | Returned(orderId: OrderId, idempotent: bool)
    | Threw(error: CheckoutError)

  datatype Call = Call(ask: Ask, phase: Phase)

  /** What becomes of a transaction: a lost connection may hide a commit. */
  datatype Fate = Answered | SerializationFailure | ConnectionLost(committed: bool)

  /** The generated ids, the feature flag and the fate of one attempt. */
  datatype Attempt = Attempt(orderId: OrderId, orderNumber: nat, discountsEnabled: bool, fate: Fate)

  datatype State = State(db: Db, calls: map<CallId, Call>)

  datatype Action =
    | Begin(call: CallId, ask: Ask)
    | Advance(call: CallId, attempt: Attempt)
    | SetCart(userId: UserId, items: seq<CartItem>)
    | EditProduct(productId: ProductId, row: ProductRow)
    | EditDiscount(code: Code, discount: DiscountRow)
    | MoveOrder(orderId: OrderId, status: Status)
    | Tick(elapsed: nat)

  predicate Carries(row: OrderRow, userId: UserId, key: Option<Key>) { row.userId == userId && row.key == key }

  predicate Least(s: set<nat>, n: nat) { n in s && forall k :: k in s ==> n <= k }

  lemma LeastOfTwo(s: set<nat>, n: nat, m: nat)
    requires n in s && Least(s - {n}, m)
    ensures Least(s, if m < n then m else n)
  {
    assert forall k :: k in s ==> k == n || k in s - {n};
  }

  lemma {:induction false} LeastExists(s: set<nat>)
    requires s != {}
    ensures exists n :: Least(s, n)
    decreases |s|
  {
    var n :| n in s;
    if s == {n} {
      assert Least(s, n);
    } else {
      assert s - {n} != {};
      LeastExists(s - {n});
      var m :| Least(s - {n}, m);
      LeastOfTwo(s, n, m);
    }
  }

  /** The lookup on the unique key; the key is unique, so taking the least id only makes it a function. */
  function FindByKey(db: Db, userId: UserId, key: Option<Key>): (found: Option<OrderId>)
    ensures found.Some? ==> found.value in db.orders && Carries(db.orders[found.value], userId, key)
    ensures found.None? ==> forall id :: id in db.orders ==> !Carries(db.orders[id], userId, key)
  {
    var ids := set id | id in db.orders && Carries(db.orders[id], userId, key);
    if ids == {} then
      assert forall id :: id in db.orders && Carries(db.orders[id], userId, key) ==> id in ids;
      None
    else
      LeastExists(ids);
      var id :| id in ids && Least(ids, id);
      Some(id)
  }

  function RequestOf(ask: Ask, items: seq<CartItem>, a: Attempt): Request {
    Request(ask.userId, ask.key, items, ask.code, a.discountsEnabled, ask.expectedTotal, a.orderId, a.orderNumber, ask.detailsValid)
  }

  /** `executeWithRetry` and the handler around it, for a failed attempt. */
  function AfterFailure(ask: Ask, items: seq<CartItem>, retries: nat, e: CheckoutError): Phase {
    if IsConflict(e) && retries < MAX_RETRIES then Trying(items, retries + 1)
    else if e.IdempotencyConflict? && ask.key.Some? then Relooking
    else Threw(e)
  }

  function Try(db: Db, ask: Ask, items: seq<CartItem>, retries: nat, a: Attempt): (Db, Phase) {
    var placed := PlaceOrder(db, RequestOf(ask, items, a));
    match a.fate
    case SerializationFailure => (db, AfterFailure(ask, items, retries, TransactionConflict))
    case ConnectionLost(committed) => (if committed && placed.Success? then placed.value else db, Threw(DatabaseFailure))
    case Answered =>
      if placed.Success? then (placed.value, Fetching(a.orderId)) else (db, AfterFailure(ask, items, retries, placed.error))
  }

  function CartOf(db: Db, userId: UserId): seq<CartItem> { if userId in db.carts then db.carts[userId] else [] }

  function NextPhase(db: Db, call: Call, a: Attempt): (Db, Phase) {
    var ask := call.ask;
    match call.phase
    case Looking =>
      if ask.key.Some? && FindByKey(db, ask.userId, ask.key).Some? then (db, Returned(FindByKey(db, ask.userId, ask.key).value, true))
      else (db, ReadingCart)
    case ReadingCart =>
      if CartOf(db, ask.userId) == [] then (db, Threw(EmptyCart)) else (db, Trying(CartOf(db, ask.userId), 0))
    case Trying(items, retries) => Try(db, ask, items, retries, a)
    case Relooking =>
      if FindByKey(db, ask.userId, ask.key).Some? then (db, Returned(FindByKey(db, ask.userId, ask.key).value, true))
      else (db, Threw(IdempotencyConflict))
    case Fetching(id) => (db, if id in db.orders then Returned(id, false) else Threw(OrderNotRetrieved))
    case Returned(_, _) => (db, call.phase)
    case Threw(_) => (db, call.phase)
  }

  function MoveRow(db: Db, id: OrderId, status: Status): Db
    requires id in db.orders
  {
    db.(orders := db.orders[id := db.orders[id].(status := status, version := db.orders[id].version + 1)])
  }

  function Apply(s: State, a: Action): State {
    match a
    case Begin(c, ask) => if c in s.calls then s else s.(calls := s.calls[c := Call(ask, Looking)])
    case Advance(c, attempt) =>
      if c !in s.calls then s
      else
        var next := NextPhase(s.db, s.calls[c], attempt);
        State(next.0, s.calls[c := s.calls[c].(phase := next.1)])
    case SetCart(u, items) => s.(db := s.db.(carts := s.db.carts[u := items]))
    case EditProduct(p, row) => s.(db := s.db.(products := s.db.products[p := row]))
    case EditDiscount(code, d) => s.(db := s.db.(discounts := s.db.discounts[code := d]))
    case MoveOrder(id, status) => if id in s.db.orders then s.(db := MoveRow(s.db, id, status)) else s
    case Tick(elapsed) => s.(db := s.db.(now := s.db.now + elapsed))
  }

  function RunCalls(s: State, actions: seq<Action>): State
    decreases |actions|
  {
    if actions == [] then s else RunCalls(Apply(s, actions[0]), actions[1..])
  }

  lemma {:induction false} RunsAppend(s: State, before: seq<Action>, after: seq<Action>)
    ensures RunCalls(s, before + after) == RunCalls(RunCalls(s, before), after)
    ensures |after| == 1 ==> RunCalls(s, before + after) == Apply(RunCalls(s, before), after[0])
    decreases |before|
  {
    if before == [] {
      assert before + after == after;
    } else {
      assert (before + after)[0] == before[0] && (before + after)[1..] == before[1..] + after;
      RunsAppend(Apply(s, before[0]), before[1..], after);
    }
  }

  // ---------- the invariant ----------

  predicate KeysUnique(db: Db) {
    forall i, j | i in db.orders && j in db.orders && db.orders[i].key.Some? ::
      Carries(db.orders[j], db.orders[i].userId, db.orders[i].key) ==> i == j
  }

  /** An order, once committed, stays, keeps its owner, its key and all its amounts. */
  predicate Kept(db: Db, db': Db, id: OrderId)
    requires id in db.orders
  {
    id in db'.orders
    && var row, row' := db.orders[id], db'.orders[id];
       && row'.userId == row.userId && row'.key == row.key && row'.orderNumber == row.orderNumber
       && row'.items == row.items && row'.pricing == row.pricing && row'.subtotal == row.subtotal && row'.total == row.total
  }

  ghost predicate OrdersPersist(db: Db, db': Db) { forall id :: id in db.orders ==> Kept(db, db', id) }

  /** The order a call created itself. */
  function Created(phase: Phase): Option<OrderId> {
    match phase
    case Fetching(id) => Some(id)
    case Returned(id, idempotent) => if idempotent then None else Some(id)
    case _ => None
  }

  predicate CallOk(db: Db, call: Call) {
    match call.phase
    case Trying(_, retries) => retries <= MAX_RETRIES
    case Relooking => call.ask.key.Some? && KeyTaken(db, call.ask.userId, call.ask.key)
    case Fetching(id) => id in db.orders && Carries(db.orders[id], call.ask.userId, call.ask.key)
    case Returned(id, idempotent) =>
      id in db.orders && Carries(db.orders[id], call.ask.userId, call.ask.key) && (idempotent ==> call.ask.key.Some?)
    case Threw(e) => !e.IdempotencyConflict? && !e.OrderNotRetrieved?
    case _ => true
  }

  ghost predicate Inv(s: State) {
    && KeysUnique(s.db)
    && (forall c :: c in s.calls ==> CallOk(s.db, s.calls[c]))
    && (forall c, d :: c in s.calls && d in s.calls && c != d && Created(s.calls[c].phase).Some? ==>
          Created(s.calls[c].phase) != Created(s.calls[d].phase))
  }

  lemma CallSurvives(db: Db, db': Db, call: Call)
    requires OrdersPersist(db, db') && CallOk(db, call)
    ensures CallOk(db', call)
  {
    if call.phase.Relooking? {
      var id :| id in db.orders && db.orders[id].userId == call.ask.userId && db.orders[id].key == call.ask.key;
      assert Kept(db, db', id);
    }
  }

  /** What a committed order adds: one row, with a key that was free. */
  ghost predicate Adds(db: Db, db': Db, id: OrderId, userId: UserId, key: Option<Key>) {
    && id !in db.orders && id in db'.orders && db'.orders == db.orders[id := db'.orders[id]]
    && Carries(db'.orders[id], userId, key) && !KeyTaken(db, userId, key)
  }

  lemma PlacedAdds(db: Db, r: Request)
    requires PlaceOrder(db, r).Success?
    ensures Adds(db, PlaceOrder(db, r).value, r.orderId, r.userId, r.key)
  {
    var _, _, _ := PlaceStages(db, r);
  }

  lemma AddingKeepsKeysUnique(db: Db, db': Db, id: OrderId, userId: UserId, key: Option<Key>)
    requires KeysUnique(db) && Adds(db, db', id, userId, key)
    ensures KeysUnique(db') && OrdersPersist(db, db')
  {
    forall i, j | i in db'.orders && j in db'.orders && db'.orders[i].key.Some?
                  && Carries(db'.orders[j], db'.orders[i].userId, db'.orders[i].key)
      ensures i == j
    {
      assert i == id || i in db.orders;
      assert j == id || j in db.orders;
    }
  }

  /** A refused order names neither internal error, and a key conflict means the key is taken. */
  lemma RefusalsAreHonest(db: Db, r: Request)
    requires PlaceOrder(db, r).Failure?
    ensures !PlaceOrder(db, r).error.OrderNotRetrieved?
    ensures PlaceOrder(db, r).error.IdempotencyConflict? ==> r.key.Some? && KeyTaken(db, r.userId, r.key)
  {
    StockErrors(db, r.items);
    if ReserveStock(db, r.items).Success? {
      var reserved := ReserveStock(db, r.items).value;
      ReserveIsExact(db, r.items);
      BuildErrors(db.products, reserved, r);
      if BuildOrder(db.products, reserved, r).Success? {
        BuildKeepsLines(db.products, reserved, r);
        var (d, priced) := BuildOrder(db.products, reserved, r).value;
        PriceEffect(reserved, Subtotal(d.items).value, r.code, r.discountsEnabled);
        assert priced.orders == db.orders;
      }
    }
  }

  predicate Internal(e: CheckoutError) { e.OrderNotRetrieved? || e.IdempotencyConflict? }

  lemma StockErrors(db: Db, items: seq<CartItem>)
    ensures ReserveStock(db, items).Failure? ==> !Internal(ReserveStock(db, items).error)
  {
    CheckErrors(db.products, items);
    CheckedItemsExist(db.products, items);
    if items != [] && CheckAll(db.products, items).None? { LoopFailsOnRepeats(db.products, db, items, {}); }
  }

  lemma BuildErrors(products: map<ProductId, ProductRow>, db: Db, r: Request)
    ensures BuildOrder(products, db, r).Failure? ==> !Internal(BuildOrder(products, db, r).error)
  {
    LineErrors(products, DRAFT, r.items);
  }

  // ---------- steps ----------

  /** The effect of one step of a call on the database: nothing, or the commit of its order. */
  ghost predicate CallEffect(db: Db, db': Db, call: Call, a: Attempt) {
    || db' == db
    || (call.phase.Trying? && var r := RequestOf(call.ask, call.phase.items, a);
        PlaceOrder(db, r).Success? && db' == PlaceOrder(db, r).value)
  }

  lemma StepOfACall(db: Db, call: Call, a: Attempt)
    requires KeysUnique(db) && CallOk(db, call)
    ensures var (db', phase') := NextPhase(db, call, a);
            && CallEffect(db, db', call, a) && KeysUnique(db') && OrdersPersist(db, db') && CallOk(db', call.(phase := phase'))
            && (Created(phase') == Created(call.phase) || (Created(phase').Some? && Created(phase').value !in db.orders) || Created(phase').None?)
  {
    if call.phase.Trying? {
      var r := RequestOf(call.ask, call.phase.items, a);
      if PlaceOrder(db, r).Success? {
        PlacedAdds(db, r);
        AddingKeepsKeysUnique(db, PlaceOrder(db, r).value, r.orderId, r.userId, r.key);
      } else {
        RefusalsAreHonest(db, r);
      }
    }
  }

  lemma StepKeepsInv(s: State, a: Action)
    requires Inv(s)
    ensures Inv(Apply(s, a)) && OrdersPersist(s.db, Apply(s, a).db)
  {
    var s' := Apply(s, a);
    if a.Advance? && a.call in s.calls {
      StepOfACall(s.db, s.calls[a.call], a.attempt);
      CreatedStayDistinct(s, a.call, a.attempt);
    } else if a.MoveOrder? && a.orderId in s.db.orders {
      forall i | i in s'.db.orders ensures i in s.db.orders && Carries(s'.db.orders[i], s.db.orders[i].userId, s.db.orders[i].key) {}
    }
    forall c | c in s'.calls && (a.Advance? ==> c != a.call) ensures CallOk(s'.db, s'.calls[c]) {
      if c in s.calls { CallSurvives(s.db, s'.db, s.calls[c]); }
    }
  }

  lemma CreatedStayDistinct(s: State, c: CallId, attempt: Attempt)
    requires Inv(s) && c in s.calls
    ensures var calls := Apply(s, Advance(c, attempt)).calls;
            forall d, e :: d in calls && e in calls && d != e && Created(calls[d].phase).Some? ==> Created(calls[d].phase) != Created(calls[e].phase)
  {
    StepOfACall(s.db, s.calls[c], attempt);
    var calls := Apply(s, Advance(c, attempt)).calls;
    forall d | d in calls && d != c && Created(calls[d].phase).Some?
      ensures Created(calls[d].phase) != Created(calls[c].phase)
    {
      assert CallOk(s.db, s.calls[d]);
    }
  }

  lemma {:induction false} RunKeepsInv(s: State, actions: seq<Action>)
    requires Inv(s)
    ensures Inv(RunCalls(s, actions)) && OrdersPersist(s.db, RunCalls(s, actions).db)
    decreases |actions|
  {
    if actions != [] {
      StepKeepsInv(s, actions[0]);
      RunKeepsInv(Apply(s, actions[0]), actions[1..]);
      var mid, end := Apply(s, actions[0]).db, RunCalls(s, actions).db;
      forall id | id in s.db.orders ensures Kept(s.db, end, id) { assert Kept(s.db, mid, id) && Kept(mid, end, id); }
    }
  }

  lemma OthersStep(s: State, a: Action, me: CallId)
    requires Inv(s) && me in s.calls && (a.Advance? ==> a.call != me)
    ensures var s' := Apply(s, a); Inv(s') && me in s'.calls && s'.calls[me] == s.calls[me] && OrdersPersist(s.db, s'.db)
  {
    StepKeepsInv(s, a);
  }

  /** Whatever the others do, a call keeps its place. */
  lemma {:induction false} OthersLeaveTheCall(s: State, actions: seq<Action>, me: CallId)
    requires Inv(s) && me in s.calls && forall a | a in actions :: a.Advance? ==> a.call != me
    ensures var s' := RunCalls(s, actions); Inv(s') && me in s'.calls && s'.calls[me] == s.calls[me] && OrdersPersist(s.db, s'.db)
    decreases |actions|
  {
    RunKeepsInv(s, actions);
    if actions != [] {
      OthersStep(s, actions[0], me);
      OthersLeaveTheCall(Apply(s, actions[0]), actions[1..], me);
    }
  }

  // ---------- the main results ----------

  predicate Fresh(s: State) { s.calls == map[] && KeysUnique(s.db) }

  predicate Succeeded(call: Call) { call.phase.Returned? }

  /**
   Over any interleaving: at most one order carries the user's key, every successful call returns
   that order (at most one of them as its creator), and the order is still stored.
   */
  lemma CheckoutIsExactlyOnce(s: State, actions: seq<Action>, c: CallId, d: CallId)
    requires Fresh(s)
    requires var calls := RunCalls(s, actions).calls; c in calls && d in calls && Succeeded(calls[c]) && Succeeded(calls[d])
    requires var calls := RunCalls(s, actions).calls; calls[c].ask.userId == calls[d].ask.userId
                                                      && calls[c].ask.key == calls[d].ask.key && calls[c].ask.key.Some?
    ensures var end := RunCalls(s, actions);
            && end.calls[c].phase.orderId == end.calls[d].phase.orderId && end.calls[c].phase.orderId in end.db.orders
            && KeysUnique(end.db)
            && (c != d ==> end.calls[c].phase.idempotent || end.calls[d].phase.idempotent)
  {
    RunKeepsInv(s, actions);
    var end := RunCalls(s, actions);
    assert CallOk(end.db, end.calls[c]) && CallOk(end.db, end.calls[d]);
  }

  /** A call never surfaces the key conflict or a lost order: the second lookup always finds the winner. */
  lemma ConflictsAreResolved(s: State, actions: seq<Action>, c: CallId)
    requires Fresh(s) && c in RunCalls(s, actions).calls
    ensures var phase := RunCalls(s, actions).calls[c].phase; phase.Threw? ==> !Internal(phase.error)
  {
    RunKeepsInv(s, actions);
    assert CallOk(RunCalls(s, actions).db, RunCalls(s, actions).calls[c]);
  }

  /** Steps left to a call: at most six transaction attempts between the lookups. */
  function StepsLeft(phase: Phase): nat {
    match phase
    case Looking => 9
    case ReadingCart => 8
    case Trying(_, retries) => 2 + (if retries < MAX_RETRIES then MAX_RETRIES - retries else 0)
    case Relooking => 1
    case Fetching(_) => 1
    case _ => 0
  }

  lemma CallsFinish(db: Db, call: Call, a: Attempt)
    requires StepsLeft(call.phase) > 0
    ensures StepsLeft(NextPhase(db, call, a).1) < StepsLeft(call.phase)
  {
  }

  /** No one edits the catalogue or the discounts by hand. */
  predicate Quiet(a: Action) { !a.EditProduct? && !a.EditDiscount? }

  lemma OtherEditsBalance(db: Db, db': Db)
    requires db'.products == db.products && db'.discounts == db.discounts && db'.outbox == db.outbox
    requires db'.orders.Keys == db.orders.Keys && OrdersPersist(db, db')
    ensures Balanced(db, db')
  {
    forall id | id in db.orders ensures db'.orders[id].items == db.orders[id].items && db'.orders[id].pricing == db.orders[id].pricing {
      assert Kept(db, db', id);
    }
    forall p | p in db.products ensures BalancedProduct(db, db', p) {
      assert SoldBy(db', p) == SoldBy(db, p);
      assert Containing(db', p) == Containing(db, p);
    }
    forall c | c in db.discounts ensures BalancedDiscount(db, db', c) { assert Using(db', c) == Using(db, c); }
  }

  lemma EditsChargeNothing(s: State, a: Action)
    requires Quiet(a) && (a.Advance? ==> a.call !in s.calls)
    ensures var db' := Apply(s, a).db;
            && db'.products == s.db.products && db'.discounts == s.db.discounts && db'.outbox == s.db.outbox
            && db'.orders.Keys == s.db.orders.Keys && OrdersPersist(s.db, db')
  {
  }

  lemma StepBalances(s: State, a: Action)
    requires Inv(s) && Quiet(a)
    ensures Balanced(s.db, Apply(s, a).db)
  {
    StepKeepsInv(s, a);
    if a.Advance? && a.call in s.calls {
      var call := s.calls[a.call];
      StepOfACall(s.db, call, a.attempt);
      if Apply(s, a).db == s.db {
        BalancedReflexive(s.db);
      } else {
        AttemptBalances(s.db, CheckoutConservation.Attempt(RequestOf(call.ask, call.phase.items, a.attempt), false));
      }
    } else {
      EditsChargeNothing(s, a);
      OtherEditsBalance(s.db, Apply(s, a).db);
    }
  }

  /** Whatever the calls do, and whatever replies get lost, each order is charged for once. */
  lemma {:induction false} CallsConserve(s: State, actions: seq<Action>)
    requires Inv(s) && forall a | a in actions :: Quiet(a)
    ensures Balanced(s.db, RunCalls(s, actions).db)
    decreases |actions|
  {
    if actions == [] {
      BalancedReflexive(s.db);
    } else {
      var mid := Apply(s, actions[0]);
      StepKeepsInv(s, actions[0]);
      StepBalances(s, actions[0]);
      CallsConserve(mid, actions[1..]);
      BalancedTransitive(s.db, mid.db, RunCalls(mid, actions[1..]).db);
    }
  }

  // ---------- what one key is charged ----------

  /** Units and discount uses charged to the order of one key, and to all other orders. */
  function KeyUnits(db: Db, userId: UserId, key: Option<Key>, p: ProductId): nat {
    var found := FindByKey(db, userId, key);
    if found.Some? then InOrder(db.orders[found.value].items, p) else 0
  }

  function KeyUses(db: Db, userId: UserId, key: Option<Key>, code: Code): int {
    var found := FindByKey(db, userId, key);
    if found.Some? then Uses(db.orders[found.value], code) else 0
  }

  function OthersSoldBy(db: Db, userId: UserId, key: Option<Key>, p: ProductId): map<OrderId, int> {
    map id | id in db.orders && !Carries(db.orders[id], userId, key) :: InOrder(db.orders[id].items, p)
  }

  function OthersUsing(db: Db, userId: UserId, key: Option<Key>, code: Code): map<OrderId, int> {
    map id | id in db.orders && !Carries(db.orders[id], userId, key) :: Uses(db.orders[id], code)
  }

  ghost function OtherUnits(db: Db, userId: UserId, key: Option<Key>, p: ProductId): int { Sum(OthersSoldBy(db, userId, key, p)) }
  ghost function OtherUses(db: Db, userId: UserId, key: Option<Key>, code: Code): int { Sum(OthersUsing(db, userId, key, code)) }

  /** The order of a key is the only one among the orders that carries it. */
  lemma SoldSplits(db: Db, userId: UserId, key: Option<Key>, p: ProductId)
    requires KeysUnique(db) && key.Some?
    ensures Sold(db, p) == KeyUnits(db, userId, key, p) + OtherUnits(db, userId, key, p)
  {
    var found := FindByKey(db, userId, key);
    if found.Some? {
      assert OthersSoldBy(db, userId, key, p) == SoldBy(db, p) - {found.value};
      SumWithout(SoldBy(db, p), found.value);
    } else {
      assert OthersSoldBy(db, userId, key, p) == SoldBy(db, p);
    }
  }

  lemma UsesSplit(db: Db, userId: UserId, key: Option<Key>, code: Code)
    requires KeysUnique(db) && key.Some?
    ensures OrdersUsing(db, code) == KeyUses(db, userId, key, code) + OtherUses(db, userId, key, code)
  {
    var found := FindByKey(db, userId, key);
    if found.Some? {
      assert OthersUsing(db, userId, key, code) == Using(db, code) - {found.value};
      SumWithout(Using(db, code), found.value);
    } else {
      assert OthersUsing(db, userId, key, code) == Using(db, code);
    }
  }

  lemma FoundStaysFound(db: Db, db': Db, userId: UserId, key: Option<Key>)
    requires KeysUnique(db') && OrdersPersist(db, db') && key.Some? && FindByKey(db, userId, key).Some?
    ensures FindByKey(db', userId, key) == FindByKey(db, userId, key)
    ensures forall p :: KeyUnits(db', userId, key, p) == KeyUnits(db, userId, key, p)
    ensures forall code :: KeyUses(db', userId, key, code) == KeyUses(db, userId, key, code)
  {
    var id := FindByKey(db, userId, key).value;
    assert Kept(db, db', id);
    assert Carries(db'.orders[id], userId, key);
  }

  /** The units of a product, and the uses of a code, that left the shop between two states. */
  ghost predicate ChargedTo(db: Db, db': Db, userId: UserId, key: Option<Key>, p: ProductId)
    requires p in db.products && p in db'.products
  {
    db.products[p].stock - db'.products[p].stock
    == KeyUnits(db', userId, key, p) - KeyUnits(db, userId, key, p) + OtherUnits(db', userId, key, p) - OtherUnits(db, userId, key, p)
  }

  ghost predicate UsedFor(db: Db, db': Db, userId: UserId, key: Option<Key>, code: Code)
    requires code in db.discounts && code in db'.discounts
  {
    db'.discounts[code].usedCount - db.discounts[code].usedCount
    == KeyUses(db', userId, key, code) - KeyUses(db, userId, key, code) + OtherUses(db', userId, key, code) - OtherUses(db, userId, key, code)
  }

  /**
   However often and however concurrently a client retries with one key, among any calls of other
   users and keys, through lost replies, conflicts and restarts: besides what all other orders took,
   the stock and the discounts are charged for exactly the one order that carries the key, or for
   none, and once that order is there its charge never changes.
   */
  lemma RetriesChargeOnce(s: State, actions: seq<Action>, userId: UserId, key: Option<Key>)
    requires Inv(s) && key.Some? && forall a | a in actions :: Quiet(a)
    ensures var end := RunCalls(s, actions).db;
            && end.products.Keys == s.db.products.Keys && end.discounts.Keys == s.db.discounts.Keys
            && KeysUnique(end)
            && (forall p :: p in s.db.products ==> ChargedTo(s.db, end, userId, key, p))
            && (forall code :: code in s.db.discounts ==> UsedFor(s.db, end, userId, key, code))
            && (FindByKey(s.db, userId, key).Some? ==>
                  && FindByKey(end, userId, key) == FindByKey(s.db, userId, key)
                  && (forall p :: KeyUnits(end, userId, key, p) == KeyUnits(s.db, userId, key, p))
                  && (forall code :: KeyUses(end, userId, key, code) == KeyUses(s.db, userId, key, code)))
  {
    var end := RunCalls(s, actions).db;
    RunKeepsInv(s, actions);
    CallsConserve(s, actions);
    forall p | p in s.db.products ensures ChargedTo(s.db, end, userId, key, p) {
      assert BalancedProduct(s.db, end, p);
      SoldSplits(s.db, userId, key, p);
      SoldSplits(end, userId, key, p);
    }
    forall code | code in s.db.discounts ensures UsedFor(s.db, end, userId, key, code) {
      assert BalancedDiscount(s.db, end, code);
      UsesSplit(s.db, userId, key, code);
      UsesSplit(end, userId, key, code);
    }
    if FindByKey(s.db, userId, key).Some? { FoundStaysFound(s.db, end, userId, key); }
  }
}
