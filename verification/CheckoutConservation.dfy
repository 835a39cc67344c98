/** What any run of checkouts conserves: stock, product versions and their events, discount usage. */
module CheckoutConservation {
  import opened Wrappers
  import opened Money
  import opened OrderStatus
  import opened OrderAggregate
  import opened CheckoutModel
  import opened Sums

  predicate DistinctProducts(items: seq<CartItem>) {
    forall i, j | 0 <= i < j < |items| :: items[i].productId != items[j].productId
  }

  function InCart(items: seq<CartItem>, p: ProductId): int {
    if items == [] then 0
    else (if items[0].productId == p then items[0].quantity else 0) + InCart(items[1..], p)
  }

  function InOrder(items: seq<OrderItem>, p: ProductId): nat {
    if items == [] then 0
    else InOrder(items[..|items| - 1], p)
         + (if items[|items| - 1].productId == p then items[|items| - 1].quantity else 0)
  }

  predicate Mentions(items: seq<CartItem>, p: ProductId) {
    exists k :: 0 <= k < |items| && items[k].productId == p
  }

  // ---------- the decrement loop ----------

  /** The source versions of a product's events, in the order they were written. */
  function Versions(outbox: seq<OutboxEvent>, p: ProductId): seq<nat> {
    if outbox == [] then []
    else
      var last := outbox[|outbox| - 1];
      Versions(outbox[..|outbox| - 1], p) + (if last.ProductUpdated? && last.productId == p then [last.sourceVersion] else [])
  }

  lemma VersionsAppend(outbox: seq<OutboxEvent>, e: OutboxEvent, p: ProductId)
    ensures Versions(outbox + [e], p) == Versions(outbox, p) + (if e.ProductUpdated? && e.productId == p then [e.sourceVersion] else [])
  {
    assert (outbox + [e])[..|outbox|] == outbox;
  }

  /** Products in `done` were decremented already and are one version ahead of the locked rows. */
  ghost predicate InStep(locked: map<ProductId, ProductRow>, db: Db, done: set<ProductId>) {
    && locked.Keys == db.products.Keys && done <= locked.Keys
    && (forall p :: p in locked && p !in done ==> db.products[p] == locked[p])
    && (forall p :: p in done ==> db.products[p].version == locked[p].version + 1)
  }

  /** What a successful loop leaves behind for one product. */
  predicate TakenProduct(locked: map<ProductId, ProductRow>, db: Db, db': Db, items: seq<CartItem>, p: ProductId) {
    && (p in db.products && p in db'.products ==>
          db'.products[p] == (if Mentions(items, p) then Decremented(db.products[p], InCart(items, p)) else db.products[p]))
    && Versions(db'.outbox, p) == Versions(db.outbox, p) + (if p in locked && Mentions(items, p) then [locked[p].version + 1] else [])
  }

  ghost predicate Taken(locked: map<ProductId, ProductRow>, db: Db, db': Db, items: seq<CartItem>) {
    && db' == db.(products := db'.products, outbox := db'.outbox) && db'.products.Keys == db.products.Keys
    && forall p :: TakenProduct(locked, db, db', items, p)
  }

  lemma MentionsCons(items: seq<CartItem>, p: ProductId)
    requires items != []
    ensures Mentions(items, p) <==> items[0].productId == p || Mentions(items[1..], p)
  {
    if k :| 0 <= k < |items| && items[k].productId == p { if k > 0 { assert items[1..][k - 1].productId == p; } }
  }

  lemma {:induction false} UnmentionedIsZero(items: seq<CartItem>, p: ProductId)
    requires !Mentions(items, p)
    ensures InCart(items, p) == 0
  {
    if items != [] {
      MentionsCons(items, p);
      UnmentionedIsZero(items[1..], p);
    }
  }

  predicate Avoids(items: seq<CartItem>, done: set<ProductId>) {
    forall k :: 0 <= k < |items| ==> items[k].productId !in done
  }

  lemma DistinctCons(items: seq<CartItem>, done: set<ProductId>)
    requires items != []
    ensures DistinctProducts(items) && Avoids(items, done) <==>
              items[0].productId !in done && DistinctProducts(items[1..]) && Avoids(items[1..], done + {items[0].productId})
  {
    var p, rest := items[0].productId, items[1..];
    assert forall k :: 1 <= k < |items| ==> items[k] == rest[k - 1];
    assert Avoids(rest, done + {p}) <==> Avoids(rest, done) && forall k :: 0 <= k < |rest| ==> rest[k].productId != p;
  }

  lemma DecrementStaysInStep(locked: map<ProductId, ProductRow>, db: Db, p: ProductId, quantity: int, done: set<ProductId>)
    requires InStep(locked, db, done) && p in locked
    ensures CanDecrement(db, p, locked[p].version) <==> p !in done
    ensures p !in done ==> InStep(locked, Decrement(db, p, locked[p].version, quantity), done + {p})
  {
  }

  /**
   The loop succeeds exactly when no product repeats: a second line for the same product finds a
   row whose version has moved on, however much stock is left.
   */
  lemma {:induction false} LoopFailsOnRepeats(locked: map<ProductId, ProductRow>, db: Db, items: seq<CartItem>, done: set<ProductId>)
    requires InStep(locked, db, done) && forall item | item in items :: item.productId in locked
    ensures DecrementAll(locked, db, items).Success? <==> DistinctProducts(items) && Avoids(items, done)
    ensures DecrementAll(locked, db, items).Failure? ==> DecrementAll(locked, db, items).error.StockConflict?
    decreases |items|
  {
    if items != [] {
      var p := items[0].productId;
      assert items[0] in items;
      DistinctCons(items, done);
      DecrementStaysInStep(locked, db, p, items[0].quantity, done);
      if p !in done {
        LoopFailsOnRepeats(locked, Decrement(db, p, locked[p].version, items[0].quantity), items[1..], done + {p});
      }
    }
  }

  /** One turn of the loop, seen from one product. */
  lemma TurnTakes(locked: map<ProductId, ProductRow>, db: Db, db': Db, items: seq<CartItem>, p: ProductId)
    requires items != [] && items[0].productId in locked && DistinctProducts(items)
    requires CanDecrement(db, items[0].productId, locked[items[0].productId].version)
    requires TakenProduct(locked, Decrement(db, items[0].productId, locked[items[0].productId].version, items[0].quantity), db', items[1..], p)
    ensures TakenProduct(locked, db, db', items, p)
  {
    var item, rest := items[0], items[1..];
    VersionsAppend(db.outbox, ProductUpdated(item.productId, locked[item.productId].version + 1), p);
    MentionsCons(items, p);
    if p == item.productId {
      assert !Mentions(rest, p) by {
        assert forall k :: 0 <= k < |rest| ==> rest[k] == items[k + 1];
      }
      UnmentionedIsZero(rest, p);
    }
  }

  lemma {:induction false} LoopTakes(locked: map<ProductId, ProductRow>, db: Db, items: seq<CartItem>, done: set<ProductId>)
    requires InStep(locked, db, done) && forall item | item in items :: item.productId in locked
    requires DecrementAll(locked, db, items).Success?
    ensures Taken(locked, db, DecrementAll(locked, db, items).value, items)
    decreases |items|
  {
    if items != [] {
      var item := items[0];
      assert item in items;
      LoopFailsOnRepeats(locked, db, items, done);
      var next := Decrement(db, item.productId, locked[item.productId].version, item.quantity);
      LoopTakes(locked, next, items[1..], done + {item.productId});
      var db' := DecrementAll(locked, db, items).value;
      forall p ensures TakenProduct(locked, db, db', items, p) {
        assert TakenProduct(locked, next, db', items[1..], p);
        TurnTakes(locked, db, db', items, p);
      }
    } else {
      forall p ensures TakenProduct(locked, db, db, items, p) {}
    }
  }

  /** A line that can be reserved: some units of an active product that has them. */
  predicate Reservable(products: map<ProductId, ProductRow>, item: CartItem) {
    && item.quantity > 0 && item.productId in products
    && products[item.productId].isActive && item.quantity <= products[item.productId].stock
  }

  /** The complaint names what is wrong with the line, quantity first, stock last. */
  predicate Complains(products: map<ProductId, ProductRow>, item: CartItem, e: CheckoutError) {
    var p := item.productId;
    || (e == InvalidQuantity(p) && item.quantity <= 0)
    || (e == ProductNotFound(p) && item.quantity > 0 && p !in products)
    || (e == ProductInactive(p) && item.quantity > 0 && p in products && !products[p].isActive)
    || (e == NotEnoughStock(p) && item.quantity > 0 && p in products && products[p].isActive && products[p].stock < item.quantity)
  }

  /** The validation reports the first line that cannot be reserved, and only if there is one. */
  lemma {:induction false} FirstComplaint(products: map<ProductId, ProductRow>, items: seq<CartItem>)
    ensures CheckAll(products, items).None? <==> forall k :: 0 <= k < |items| ==> Reservable(products, items[k])
    ensures CheckAll(products, items).Some? ==>
              exists k :: && 0 <= k < |items| && Complains(products, items[k], CheckAll(products, items).value)
                          && forall j :: 0 <= j < k ==> Reservable(products, items[j])
    decreases |items|
  {
    if items != [] {
      var rest := items[1..];
      FirstComplaint(products, rest);
      if CheckItem(products, items[0]).Some? {
        assert Complains(products, items[0], CheckAll(products, items).value) && !Reservable(products, items[0]);
      } else {
        assert Reservable(products, items[0]) && forall j :: 1 <= j < |items| ==> items[j] == rest[j - 1];
        if CheckAll(products, rest).Some? {
          var k :| && 0 <= k < |rest| && Complains(products, rest[k], CheckAll(products, rest).value)
                   && forall j :: 0 <= j < k ==> Reservable(products, rest[j]);
          assert items[k + 1] == rest[k];
          assert !Reservable(products, items[k + 1]);
          assert Complains(products, items[k + 1], CheckAll(products, items).value);
        } else {
          assert forall k :: 0 <= k < |rest| ==> Reservable(products, rest[k]);
        }
      }
    }
  }

  /**
   Reserving succeeds exactly for a cart without repeats whose lines can all be reserved, and then
   takes what it says; it complains about the first line that cannot be reserved, and a repeat is a conflict.
   */
  lemma ReserveIsExact(db: Db, items: seq<CartItem>)
    ensures ReserveStock(db, items).Success? <==>
              items != [] && (forall k :: 0 <= k < |items| ==> Reservable(db.products, items[k])) && DistinctProducts(items)
    ensures ReserveStock(db, items).Failure? ==>
              var e := ReserveStock(db, items).error;
              || (items == [] && e == EmptyCart)
              || (exists k :: 0 <= k < |items| && Complains(db.products, items[k], e) && forall j :: 0 <= j < k ==> Reservable(db.products, items[j]))
              || (e.StockConflict? && !DistinctProducts(items))
    ensures ReserveStock(db, items).Success? ==>
              && Taken(db.products, db, ReserveStock(db, items).value, items)
              && forall p :: p in db.products && Mentions(items, p) ==> 0 < InCart(items, p) <= db.products[p].stock
  {
    CheckedItemsExist(db.products, items);
    FirstComplaint(db.products, items);
    if items != [] && CheckAll(db.products, items).None? {
      LoopFailsOnRepeats(db.products, db, items, {});
      if ReserveStock(db, items).Success? {
        LoopTakes(db.products, db, items, {});
        forall p | p in db.products && Mentions(items, p) ensures 0 < InCart(items, p) <= db.products[p].stock {
          DistinctInCart(items, p);
        }
      }
    }
  }

  lemma {:induction false} DistinctInCart(items: seq<CartItem>, p: ProductId)
    requires DistinctProducts(items) && Mentions(items, p)
    ensures exists k :: 0 <= k < |items| && items[k].productId == p && InCart(items, p) == items[k].quantity
  {
    MentionsCons(items, p);
    if items[0].productId == p {
      assert forall k :: 0 <= k < |items[1..]| ==> items[1..][k] == items[k + 1];
      UnmentionedIsZero(items[1..], p);
    } else {
      DistinctInCart(items[1..], p);
      var k :| 0 <= k < |items[1..]| && items[1..][k].productId == p && InCart(items[1..], p) == items[1..][k].quantity;
      assert items[k + 1].productId == p;
    }
  }

  // ---------- the order's lines ----------

  lemma {:induction false} InOrderUpdate(items: seq<OrderItem>, i: nat, quantity: nat, p: ProductId)
    requires i < |items|
    ensures InOrder(items[i := items[i].(quantity := quantity)], p)
         == InOrder(items, p) + (if items[i].productId == p then quantity - items[i].quantity else 0)
  {
    var n := |items| - 1;
    var items' := items[i := items[i].(quantity := quantity)];
    if i < n {
      InOrderUpdate(items[..n], i, quantity, p);
      assert items'[..n] == items[..n][i := items[i].(quantity := quantity)];
    } else {
      assert items'[..n] == items[..n];
    }
  }

  lemma AddLineAdds(products: map<ProductId, ProductRow>, d: OrderData, item: CartItem, p: ProductId)
    requires AddLine(products, d, item).Success?
    ensures InOrder(AddLine(products, d, item).value.items, p)
         == InOrder(d.items, p) + (if item.productId == p then item.quantity else 0)
  {
    var items' := AddLine(products, d, item).value.items;
    var i := IndexOf(d.items, item.productId);
    if i < |d.items| {
      InOrderUpdate(d.items, i, d.items[i].quantity + item.quantity, p);
    } else {
      assert items'[..|items'| - 1] == d.items;
    }
  }

  /** Merging loses and invents nothing: the order holds exactly the cart's quantities. */
  lemma {:induction false} OrderHoldsTheCart(products: map<ProductId, ProductRow>, d: OrderData, items: seq<CartItem>, p: ProductId)
    requires AddLines(products, d, items).Success?
    ensures InOrder(AddLines(products, d, items).value.items, p) == InOrder(d.items, p) + InCart(items, p)
    decreases |items|
  {
    if items != [] {
      AddLineAdds(products, d, items[0], p);
      OrderHoldsTheCart(products, AddLine(products, d, items[0]).value, items[1..], p);
    }
  }

  // ---------- one transaction ----------

  function Uses(row: OrderRow, code: Code): int { if row.pricing.discountCode == Some(code) then 1 else 0 }

  /** The effect of a committed checkout on one product and on one discount. */
  predicate CommittedProduct(db: Db, db': Db, row: OrderRow, p: ProductId)
    requires p in db.products && p in db'.products
  {
    var sold, before := InOrder(row.items, p), db.products[p];
    && db'.products[p] == (if sold > 0 then Decremented(before, sold) else before)
    && (sold > 0 ==> sold <= before.stock)
    && Versions(db'.outbox, p) == Versions(db.outbox, p) + (if sold > 0 then [before.version + 1] else [])
  }

  predicate CommittedDiscount(db: Db, db': Db, row: OrderRow, code: Code)
    requires code in db.discounts && code in db'.discounts
  {
    && db'.discounts[code] == db.discounts[code].(usedCount := db.discounts[code].usedCount + Uses(row, code))
    && (Uses(row, code) == 1 ==> HasRoom(db.discounts[code]))
  }

  /** The code that a price has to honour: any code that is given while the discount system is on. */
  function Honoured(code: Option<Code>, enabled: bool): Option<Code> {
    if code.Some? && code.value != "" && enabled then code else None
  }

  /** The effect of a committed checkout, in full. */
  ghost predicate Committed(db: Db, db': Db, r: Request) {
    && r.orderId !in db.orders && r.orderId in db'.orders
    && db'.orders == db.orders[r.orderId := db'.orders[r.orderId]]
    && db'.products.Keys == db.products.Keys && db'.discounts.Keys == db.discounts.Keys && db'.now == db.now
    && db'.carts == db.carts[r.userId := []]
    && var row := db'.orders[r.orderId];
       && row.userId == r.userId && row.key == r.key && row.items != []
       && (forall p :: InOrder(row.items, p) == InCart(r.items, p))
       && (forall p :: p in db.products ==> CommittedProduct(db, db', row, p))
       && (forall code :: code in db.discounts ==> CommittedDiscount(db, db', row, code))
       && row.pricing.discountCode == Honoured(r.code, r.discountsEnabled)
       && (row.pricing.discountCode.Some? ==> row.pricing.discountCode.value in db.discounts)
  }

  lemma BuildKeepsLines(products: map<ProductId, ProductRow>, db: Db, r: Request)
    requires BuildOrder(products, db, r).Success?
    ensures AddLines(products, DRAFT, r.items).Success?
    ensures var (d, db') := BuildOrder(products, db, r).value;
            && d.items == AddLines(products, DRAFT, r.items).value.items && d.items != [] && Total(d).Success?
            && Price(db, Subtotal(d.items).value, r.code, r.discountsEnabled, true) == Success((d.pricing, db'))
  {
  }

  predicate ConsumedBy(db: Db, db': Db, pricing: Pricing, c: Code)
    requires c in db.discounts && c in db'.discounts
  {
    && db'.discounts[c] == db.discounts[c].(usedCount := db.discounts[c].usedCount + (if pricing.discountCode == Some(c) then 1 else 0))
    && (pricing.discountCode == Some(c) ==> HasRoom(db.discounts[c]))
  }

  lemma PriceEffect(db: Db, subtotal: Money, code: Option<Code>, enabled: bool)
    requires Price(db, subtotal, code, enabled, true).Success?
    ensures var (pricing, db') := Price(db, subtotal, code, enabled, true).value;
            && db' == db.(discounts := db'.discounts) && db'.discounts.Keys == db.discounts.Keys
            && pricing.discountCode == Honoured(code, enabled)
            && (pricing.discountCode.Some? ==> pricing.discountCode.value in db.discounts)
            && forall c :: c in db.discounts ==> ConsumedBy(db, db', pricing, c)
  {
  }

  lemma CartQuantity(db: Db, r: Request, p: ProductId)
    requires ReserveStock(db, r.items).Success?
    ensures if Mentions(r.items, p) then p in db.products && 0 < InCart(r.items, p) <= db.products[p].stock
            else InCart(r.items, p) == 0
  {
    ReserveIsExact(db, r.items);
    if Mentions(r.items, p) {
      CheckedItemsExist(db.products, r.items);
      var k :| 0 <= k < |r.items| && r.items[k].productId == p;
      assert r.items[k] in r.items;
    } else {
      UnmentionedIsZero(r.items, p);
    }
  }

  /** The committed state, table by table, from the stages of the transaction. */
  lemma PlaceStages(db: Db, r: Request) returns (reserved: Db, d: OrderData, priced: Db)
    requires PlaceOrder(db, r).Success?
    ensures ReserveStock(db, r.items) == Success(reserved) && BuildOrder(db.products, reserved, r) == Success((d, priced))
    ensures AddLines(db.products, DRAFT, r.items).Success? && d.items == AddLines(db.products, DRAFT, r.items).value.items
    ensures d.items != [] && Total(d).Success?
    ensures Price(reserved, Subtotal(d.items).value, r.code, r.discountsEnabled, true) == Success((d.pricing, priced))
    ensures r.orderId !in db.orders && !NumberTaken(db, r.orderNumber) && !KeyTaken(db, r.userId, r.key)
    ensures PlaceOrder(db, r).value == Db(
              reserved.products, priced.discounts, db.orders[r.orderId := RowOf(r, d)], db.carts[r.userId := []],
              reserved.outbox + [OrderRecorded(r.orderId, PlacedEvent(d), Some(0))], db.now)
  {
    ReserveIsExact(db, r.items);
    reserved := ReserveStock(db, r.items).value;
    BuildKeepsLines(db.products, reserved, r);
    d, priced := BuildOrder(db.products, reserved, r).value.0, BuildOrder(db.products, reserved, r).value.1;
    PriceEffect(reserved, Subtotal(d.items).value, r.code, r.discountsEnabled);
    assert priced.orders == db.orders;
  }

  lemma ProductCommitted(db: Db, r: Request, p: ProductId)
    requires PlaceOrder(db, r).Success? && p in db.products
    ensures var db' := PlaceOrder(db, r).value;
            p in db'.products && r.orderId in db'.orders && CommittedProduct(db, db', db'.orders[r.orderId], p)
  {
    var reserved, d, _ := PlaceStages(db, r);
    TakenByReserving(db, r.items, p);
    OrderHoldsTheCart(db.products, DRAFT, r.items, p);
    CartQuantity(db, r, p);
    VersionsAppend(reserved.outbox, OrderRecorded(r.orderId, PlacedEvent(d), Some(0)), p);
  }

  lemma TakenByReserving(db: Db, items: seq<CartItem>, p: ProductId)
    requires ReserveStock(db, items).Success?
    ensures ReserveStock(db, items).value.products.Keys == db.products.Keys
    ensures TakenProduct(db.products, db, ReserveStock(db, items).value, items, p)
  {
    ReserveIsExact(db, items);
  }

  lemma DiscountCommitted(db: Db, r: Request, c: Code)
    requires PlaceOrder(db, r).Success? && c in db.discounts
    ensures var db' := PlaceOrder(db, r).value;
            c in db'.discounts && r.orderId in db'.orders && CommittedDiscount(db, db', db'.orders[r.orderId], c)
  {
    var reserved, d, priced := PlaceStages(db, r);
    ReserveIsExact(db, r.items);
    PriceEffect(reserved, Subtotal(d.items).value, r.code, r.discountsEnabled);
    assert ConsumedBy(reserved, priced, d.pricing, c);
  }

  lemma LinesCommitted(db: Db, r: Request, p: ProductId)
    requires PlaceOrder(db, r).Success?
    ensures var db' := PlaceOrder(db, r).value;
            r.orderId in db'.orders && InOrder(db'.orders[r.orderId].items, p) == InCart(r.items, p)
  {
    var _, _, _ := PlaceStages(db, r);
    OrderHoldsTheCart(db.products, DRAFT, r.items, p);
  }

  lemma OrderCommitted(db: Db, r: Request)
    requires PlaceOrder(db, r).Success?
    ensures var db' := PlaceOrder(db, r).value;
            && r.orderId !in db.orders && r.orderId in db'.orders
            && db'.orders == db.orders[r.orderId := db'.orders[r.orderId]]
            && db'.products.Keys == db.products.Keys && db'.discounts.Keys == db.discounts.Keys && db'.now == db.now
            && db'.carts == db.carts[r.userId := []]
            && var row := db'.orders[r.orderId];
               && row.userId == r.userId && row.key == r.key && row.items != []
               && row.pricing.discountCode == Honoured(r.code, r.discountsEnabled)
               && (row.pricing.discountCode.Some? ==> row.pricing.discountCode.value in db.discounts)
  {
    var reserved, d, _ := PlaceStages(db, r);
    ReserveIsExact(db, r.items);
    PriceEffect(reserved, Subtotal(d.items).value, r.code, r.discountsEnabled);
  }

  lemma CheckoutCommits(db: Db, r: Request)
    requires PlaceOrder(db, r).Success?
    ensures Committed(db, PlaceOrder(db, r).value, r)
  {
    var db' := PlaceOrder(db, r).value;
    OrderCommitted(db, r);
    var row := db'.orders[r.orderId];
    forall p ensures InOrder(row.items, p) == InCart(r.items, p) { LinesCommitted(db, r, p); }
    forall p | p in db.products ensures CommittedProduct(db, db', row, p) { ProductCommitted(db, r, p); }
    forall c | c in db.discounts ensures CommittedDiscount(db, db', row, c) { DiscountCommitted(db, r, c); }
  }

  // ---------- whole runs ----------

  /** A transaction attempt; the database may abort it for reasons of its own. */
  datatype Attempt = Attempt(request: Request, aborted: bool)

  function RunAttempt(db: Db, a: Attempt): Db { if a.aborted then db else Commit(db, a.request) }

  function Runs(db: Db, attempts: seq<Attempt>): Db
    decreases |attempts|
  {
    if attempts == [] then db else Runs(RunAttempt(db, attempts[0]), attempts[1..])
  }

  function SoldBy(db: Db, p: ProductId): map<OrderId, int> {
    map id | id in db.orders :: InOrder(db.orders[id].items, p)
  }

  function Containing(db: Db, p: ProductId): map<OrderId, int> {
    map id | id in db.orders :: if InOrder(db.orders[id].items, p) > 0 then 1 else 0
  }

  function Using(db: Db, code: Code): map<OrderId, int> {
    map id | id in db.orders :: Uses(db.orders[id], code)
  }

  /** Units sold, orders containing the product, orders carrying the code. */
  ghost function Sold(db: Db, p: ProductId): int { Sum(SoldBy(db, p)) }
  ghost function OrdersWith(db: Db, p: ProductId): int { Sum(Containing(db, p)) }
  ghost function OrdersUsing(db: Db, code: Code): int { Sum(Using(db, code)) }

  /** Consecutive versions from `from` (exclusive) up to `to`. */
  function Upto(from: nat, to: nat): seq<nat> {
    if to <= from then [] else Upto(from, to - 1) + [to]
  }

  /** The books of one product and of one discount between two states of the database. */
  ghost predicate BalancedProduct(db: Db, db': Db, p: ProductId)
    requires p in db.products && p in db'.products
  {
    var before, after := db.products[p], db'.products[p];
    && after.stock + Sold(db', p) == before.stock + Sold(db, p)
    && (before.stock >= 0 ==> after.stock >= 0)
    && before.version <= after.version
    && after.version - before.version == OrdersWith(db', p) - OrdersWith(db, p)
    && Versions(db'.outbox, p) == Versions(db.outbox, p) + Upto(before.version, after.version)
  }

  ghost predicate BalancedDiscount(db: Db, db': Db, c: Code)
    requires c in db.discounts && c in db'.discounts
  {
    var before, after := db.discounts[c], db'.discounts[c];
    && after.maxUses == before.maxUses
    && after.usedCount - before.usedCount == OrdersUsing(db', c) - OrdersUsing(db, c)
    && (Within(before) ==> Within(after))
  }

  ghost predicate Balanced(db: Db, db': Db) {
    && db'.products.Keys == db.products.Keys && db'.discounts.Keys == db.discounts.Keys
    && (forall p :: p in db.products ==> BalancedProduct(db, db', p))
    && (forall c :: c in db.discounts ==> BalancedDiscount(db, db', c))
  }

  predicate Within(d: DiscountRow) { d.maxUses.None? || d.usedCount <= d.maxUses.value }

  lemma Appended<T>(a: seq<T>, b: seq<T>, c: seq<T>, u: seq<T>, v: seq<T>)
    requires b == a + u && c == b + v
    ensures c == a + (u + v)
  {
  }

  lemma ProductTransitive(a: Db, b: Db, c: Db, p: ProductId)
    requires p in a.products && p in b.products && p in c.products
    requires BalancedProduct(a, b, p) && BalancedProduct(b, c, p)
    ensures BalancedProduct(a, c, p)
  {
    var i, j, k := a.products[p].version, b.products[p].version, c.products[p].version;
    UptoJoins(i, j, k);
    Appended(Versions(a.outbox, p), Versions(b.outbox, p), Versions(c.outbox, p), Upto(i, j), Upto(j, k));
  }

  lemma BalancedTransitive(a: Db, b: Db, c: Db)
    requires Balanced(a, b) && Balanced(b, c)
    ensures Balanced(a, c)
  {
    forall p | p in a.products ensures BalancedProduct(a, c, p) { ProductTransitive(a, b, c, p); }
    forall d | d in a.discounts ensures BalancedDiscount(a, c, d) {
      assert BalancedDiscount(a, b, d) && BalancedDiscount(b, c, d);
    }
  }

  lemma BalancedReflexive(db: Db)
    ensures Balanced(db, db)
  {
    forall p | p in db.products ensures BalancedProduct(db, db, p) {}
    forall c | c in db.discounts ensures BalancedDiscount(db, db, c) {}
  }

  lemma {:induction false} UptoJoins(a: nat, b: nat, c: nat)
    requires a <= b <= c
    ensures Upto(a, b) + Upto(b, c) == Upto(a, c)
    decreases c
  {
    if b < c {
      UptoJoins(a, b, c - 1);
      assert Upto(a, b) + (Upto(b, c - 1) + [c]) == Upto(a, b) + Upto(b, c - 1) + [c];
    }
  }

  lemma SoldGrows(db: Db, db': Db, id: OrderId, row: OrderRow, p: ProductId)
    requires id !in db.orders && db'.orders == db.orders[id := row]
    ensures Sold(db', p) == Sold(db, p) + InOrder(row.items, p)
  {
    assert SoldBy(db', p) == SoldBy(db, p)[id := InOrder(row.items, p)];
    SumUpdate(SoldBy(db, p), id, InOrder(row.items, p));
  }

  lemma OrdersWithGrows(db: Db, db': Db, id: OrderId, row: OrderRow, p: ProductId)
    requires id !in db.orders && db'.orders == db.orders[id := row]
    ensures OrdersWith(db', p) == OrdersWith(db, p) + (if InOrder(row.items, p) > 0 then 1 else 0)
  {
    var one := if InOrder(row.items, p) > 0 then 1 else 0;
    assert Containing(db', p) == Containing(db, p)[id := one];
    SumUpdate(Containing(db, p), id, one);
  }

  lemma UptoNext(n: nat)
    ensures Upto(n, n + 1) == [n + 1] && Upto(n, n) == []
  {
  }

  /** The books of a product after one more order, from what the order took of it. */
  lemma OneOrderBalances(db: Db, db': Db, row: OrderRow, p: ProductId)
    requires p in db.products && p in db'.products && CommittedProduct(db, db', row, p)
    requires Sold(db', p) == Sold(db, p) + InOrder(row.items, p)
    requires OrdersWith(db', p) == OrdersWith(db, p) + (if InOrder(row.items, p) > 0 then 1 else 0)
    ensures BalancedProduct(db, db', p)
  {
    UptoNext(db.products[p].version);
  }

  lemma CommitBalancesProduct(db: Db, db': Db, r: Request, p: ProductId)
    requires Committed(db, db', r) && p in db.products
    ensures BalancedProduct(db, db', p)
  {
    SoldGrows(db, db', r.orderId, db'.orders[r.orderId], p);
    OrdersWithGrows(db, db', r.orderId, db'.orders[r.orderId], p);
    OneOrderBalances(db, db', db'.orders[r.orderId], p);
  }

  lemma CommitBalancesDiscount(db: Db, db': Db, r: Request, c: Code)
    requires Committed(db, db', r) && c in db.discounts
    ensures BalancedDiscount(db, db', c)
  {
    var row := db'.orders[r.orderId];
    assert CommittedDiscount(db, db', row, c);
    assert Using(db', c) == Using(db, c)[r.orderId := Uses(row, c)];
    SumUpdate(Using(db, c), r.orderId, Uses(row, c));
  }

  lemma CommitBalances(db: Db, db': Db, r: Request)
    requires Committed(db, db', r)
    ensures Balanced(db, db')
  {
    forall p | p in db.products ensures BalancedProduct(db, db', p) { CommitBalancesProduct(db, db', r, p); }
    forall c | c in db.discounts ensures BalancedDiscount(db, db', c) { CommitBalancesDiscount(db, db', r, c); }
  }

  lemma AttemptBalances(db: Db, a: Attempt)
    ensures Balanced(db, RunAttempt(db, a))
  {
    if !a.aborted && PlaceOrder(db, a.request).Success? {
      CheckoutCommits(db, a.request);
      CommitBalances(db, PlaceOrder(db, a.request).value, a.request);
    } else {
      BalancedReflexive(db);
    }
  }

  /**
   Conservation over any run of committed, rejected and aborted checkouts: stock plus units sold
   is constant and stock stays non-negative; a product's version rises once per committed order
   containing it, with exactly one event per version; a discount's usage grows by exactly the
   committed orders carrying its code and stays within its limit.
   */
  lemma {:induction false} CheckoutsConserve(db: Db, attempts: seq<Attempt>)
    ensures Balanced(db, Runs(db, attempts))
    decreases |attempts|
  {
    if attempts == [] {
      BalancedReflexive(db);
    } else {
      var next := RunAttempt(db, attempts[0]);
      AttemptBalances(db, attempts[0]);
      CheckoutsConserve(next, attempts[1..]);
      BalancedTransitive(db, next, Runs(next, attempts[1..]));
    }
  }
}
