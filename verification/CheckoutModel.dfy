/**
 The checkout transaction as a function on the tables it touches: reserve stock, build and price
 the order, save it under the caller's idempotency key.  A failed transaction leaves no trace.
 */
module CheckoutModel {
  import opened Wrappers
  import opened Money
  import opened OrderStatus
  import opened OrderAggregate

  type ProductId = nat
  type UserId = nat
  type OrderId = nat
  type Key = nat
  type Code = string

  datatype ProductRow = ProductRow(name: string, price: Dong, stock: int, version: nat, isActive: bool)

  datatype DiscountKind = PERCENTAGE | FIXED

  datatype DiscountRow = DiscountRow(
    kind: DiscountKind, value: real, minOrderAmount: Option<nat>, maxUses: Option<int>, usedCount: int,
    expiresAt: Option<nat>, isActive: bool)

  datatype CartItem = CartItem(productId: ProductId, quantity: int)

  datatype OrderRow = OrderRow(
    userId: UserId, key: Option<Key>, orderNumber: nat, items: seq<OrderItem>, pricing: Pricing,
    subtotal: nat, total: nat, status: Status, version: nat)

  datatype OutboxEvent =
    | ProductUpdated(productId: ProductId, sourceVersion: nat)
    | OrderRecorded(orderId: OrderId, event: OrderEvent, version: Option<nat>)

  datatype Db = Db(
    products: map<ProductId, ProductRow>, discounts: map<Code, DiscountRow>, orders: map<OrderId, OrderRow>,
    carts: map<UserId, seq<CartItem>>, outbox: seq<OutboxEvent>, now: nat)

  datatype CheckoutError =
    | EmptyCart
    | InvalidQuantity(productId: ProductId)
    | ProductNotFound(productId: ProductId)
    | ProductInactive(productId: ProductId)
    | NotEnoughStock(productId: ProductId)
    | Unavailable(productId: ProductId)
    | InvalidCode
    | CodeExpired
    | BelowMinimum
    | UsageLimitReached
    | InvalidDetails
    | TotalChanged
    | OrderFailure(error: OrderError)
    | DatabaseFailure
    | IdempotencyConflict
    | OrderNotRetrieved
    // the next three are `ConflictError`s, which the service retries
    | StockConflict(productId: ProductId)
    | DiscountConflict
    | TransactionConflict

  predicate IsConflict(e: CheckoutError) { e.StockConflict? || e.DiscountConflict? || e.TransactionConflict? }

  // ---------- stock ----------

  function CheckItem(products: map<ProductId, ProductRow>, item: CartItem): Option<CheckoutError> {
    if item.quantity <= 0 then Some(InvalidQuantity(item.productId))
    else if item.productId !in products then Some(ProductNotFound(item.productId))
    else if !products[item.productId].isActive then Some(ProductInactive(item.productId))
    else if products[item.productId].stock < item.quantity then Some(NotEnoughStock(item.productId))
    else None
  }

  /** The first complaint of the validation loop. */
  function CheckAll(products: map<ProductId, ProductRow>, items: seq<CartItem>): Option<CheckoutError> {
    if items == [] then None
    else if CheckItem(products, items[0]).Some? then CheckItem(products, items[0])
    else CheckAll(products, items[1..])
  }

  predicate CanDecrement(db: Db, id: ProductId, expectedVersion: nat) {
    id in db.products && db.products[id].version == expectedVersion
  }

  /** The guarded decrement: stock itself is not part of the guard. */
  function Decremented(p: ProductRow, quantity: int): ProductRow {
    p.(stock := p.stock - quantity, version := p.version + 1)
  }

  function Decrement(db: Db, id: ProductId, expectedVersion: nat, quantity: int): Db
    requires CanDecrement(db, id, expectedVersion)
  {
    db.(products := db.products[id := Decremented(db.products[id], quantity)],
        outbox := db.outbox + [ProductUpdated(id, expectedVersion + 1)])
  }

  /** The decrement loop, guarded by the versions read under lock at the start. */
  function DecrementAll(locked: map<ProductId, ProductRow>, db: Db, items: seq<CartItem>): Result<Db, CheckoutError>
    requires forall item | item in items :: item.productId in locked
    decreases |items|
  {
    if items == [] then Success(db)
    else
      var item := items[0];
      var expected := locked[item.productId].version;
      if !CanDecrement(db, item.productId, expected) then Failure(StockConflict(item.productId))
      else DecrementAll(locked, Decrement(db, item.productId, expected, item.quantity), items[1..])
  }

  lemma CheckedItemsExist(products: map<ProductId, ProductRow>, items: seq<CartItem>)
    ensures CheckAll(products, items).None? <==> forall item | item in items :: CheckItem(products, item).None?
  {
    if items != [] { assert forall item :: item in items <==> item == items[0] || item in items[1..]; }
  }

  /** Complaints about single lines of the cart. */
  predicate AboutALine(e: CheckoutError) {
    e.InvalidQuantity? || e.ProductNotFound? || e.ProductInactive? || e.NotEnoughStock? || e.OrderFailure?
  }

  lemma {:induction false} CheckErrors(products: map<ProductId, ProductRow>, items: seq<CartItem>)
    ensures CheckAll(products, items).Some? ==> AboutALine(CheckAll(products, items).value)
  {
    if items != [] { CheckErrors(products, items[1..]); }
  }

  function ReserveStock(db: Db, items: seq<CartItem>): Result<Db, CheckoutError> {
    if items == [] then Failure(EmptyCart)
    else if CheckAll(db.products, items).Some? then Failure(CheckAll(db.products, items).value)
    else
      CheckedItemsExist(db.products, items);
      DecrementAll(db.products, db, items)
  }

  // ---------- pricing ----------

  const TAX_RATE: real := 0.1
  const FREE_SHIPPING_THRESHOLD: nat := 500_000
  const SHIPPING_FEE: nat := 30_000

  function ShippingFee(subtotal: Money): Money {
    Value(if subtotal.amount >= FREE_SHIPPING_THRESHOLD then 0 else SHIPPING_FEE, VND)
  }

  predicate HasRoom(d: DiscountRow) { d.maxUses.None? || d.usedCount < d.maxUses.value }

  function CheckDiscount(db: Db, subtotal: Money, code: Code, consume: bool): Option<CheckoutError> {
    if code !in db.discounts || !db.discounts[code].isActive then Some(InvalidCode)
    else
      var d := db.discounts[code];
      if d.expiresAt.Some? && d.expiresAt.value < db.now then Some(CodeExpired)
      else if d.minOrderAmount.Some? && subtotal.amount < d.minOrderAmount.value then Some(BelowMinimum)
      else if !HasRoom(d) then Some(if consume then DiscountConflict else UsageLimitReached)
      else None
  }

  function Consume(db: Db, code: Code): Db
    requires code in db.discounts
  {
    db.(discounts := db.discounts[code := db.discounts[code].(usedCount := db.discounts[code].usedCount + 1)])
  }

  function RawDiscount(d: DiscountRow, subtotal: Money): Result<Money, MoneyError> {
    if d.kind.PERCENTAGE? then Multiply(subtotal, d.value / 100.0) else New(d.value, VND)
  }

  /** A tenth of a safe amount is safe, so taxing cannot throw. */
  function Tax(subtotal: Money): (tax: Money)
    ensures tax.currency == subtotal.currency && -5 <= 10 * tax.amount - subtotal.amount <= 5
  {
    Multiply(subtotal, TAX_RATE).value
  }

  /** `price` in its two modes; only the consuming one changes the discount's usage. */
  function Price(db: Db, subtotal: Money, code: Option<Code>, enabled: bool, consume: bool): Result<(Pricing, Db), CheckoutError> {
    var tax := Tax(subtotal);
    if code.None? || code.value == "" || !enabled then
      Success((Pricing(tax, ShippingFee(subtotal), ZERO, None), db))
    else if CheckDiscount(db, subtotal, code.value, consume).Some? then
      Failure(CheckDiscount(db, subtotal, code.value, consume).value)
    else
      var raw := RawDiscount(db.discounts[code.value], subtotal);
      if raw.Failure? then Failure(OrderFailure(MoneyFailure(raw.error)))
      else
        var amount := if subtotal.amount < raw.value.amount then subtotal else raw.value;
        Success((Pricing(tax, ShippingFee(subtotal), amount, code), if consume then Consume(db, code.value) else db))
  }

  // ---------- the order ----------

  datatype Request = Request(
    userId: UserId, key: Option<Key>, items: seq<CartItem>, code: Option<Code>, discountsEnabled: bool,
    expectedTotal: Option<int>, orderId: OrderId, orderNumber: nat, detailsValid: bool)

  function AddLine(products: map<ProductId, ProductRow>, d: OrderData, item: CartItem): Result<OrderData, CheckoutError> {
    if item.productId !in products then Failure(ProductNotFound(item.productId))
    else
      var p := products[item.productId];
      var d' := WithItem(d, item.productId, p.name, item.quantity, p.price);
      if d'.Success? then Success(d'.value) else Failure(OrderFailure(d'.error))
  }

  function AddLines(products: map<ProductId, ProductRow>, d: OrderData, items: seq<CartItem>): Result<OrderData, CheckoutError>
    decreases |items|
  {
    if items == [] then Success(d)
    else
      var d' := AddLine(products, d, items[0]);
      if d'.Failure? then d' else AddLines(products, d'.value, items[1..])
  }

  lemma {:induction false} LineErrors(products: map<ProductId, ProductRow>, d: OrderData, items: seq<CartItem>)
    ensures AddLines(products, d, items).Failure? ==> AboutALine(AddLines(products, d, items).error)
    decreases |items|
  {
    if items != [] && AddLine(products, d, items[0]).Success? { LineErrors(products, AddLine(products, d, items[0]).value, items[1..]); }
  }

  function LiftOrder<T>(r: Result<T, OrderError>): Result<T, CheckoutError> {
    if r.Success? then Success(r.value) else Failure(OrderFailure(r.error))
  }

  /** Price the merged lines, check the total the client saw, place the order. */
  function Finish(d: OrderData, db: Db, r: Request): Result<(OrderData, Db), CheckoutError> {
    if Subtotal(d.items).Failure? then Failure(OrderFailure(Subtotal(d.items).error))
    else
      var price := Price(db, Subtotal(d.items).value, r.code, r.discountsEnabled, true);
      if price.Failure? then Failure(price.error)
      else
        var priced := LiftOrder(Priced(d, price.value.0));
        if priced.Failure? then Failure(priced.error)
        else if r.expectedTotal.Some? && Total(priced.value).Failure? then Failure(OrderFailure(Total(priced.value).error))
        else if r.expectedTotal.Some? && Total(priced.value).value.amount != r.expectedTotal.value then Failure(TotalChanged)
        else
          var placed := LiftOrder(Placed(priced.value));
          if placed.Failure? then Failure(placed.error) else Success((placed.value, price.value.1))
  }

  function BuildOrder(products: map<ProductId, ProductRow>, db: Db, r: Request): Result<(OrderData, Db), CheckoutError> {
    if !r.detailsValid then Failure(InvalidDetails)
    else
      var d := AddLines(products, DRAFT, r.items);
      if d.Failure? then Failure(d.error) else Finish(d.value, db, r)
  }

  /** The unique key on (user, idempotency key). */
  predicate KeyTaken(db: Db, userId: UserId, key: Option<Key>) {
    key.Some? && exists id :: id in db.orders && db.orders[id].userId == userId && db.orders[id].key == key
  }

  predicate NumberTaken(db: Db, orderNumber: nat) {
    exists id :: id in db.orders && db.orders[id].orderNumber == orderNumber
  }

  function RowOf(r: Request, d: OrderData): OrderRow
    requires Total(d).Success?
  {
    OrderRow(r.userId, r.key, r.orderNumber, d.items, d.pricing, Subtotal(d.items).value.amount, Total(d).value.amount, d.status, 0)
  }

  function SaveOrder(db: Db, r: Request, d: OrderData): Result<Db, CheckoutError>
    requires Total(d).Success?
  {
    if r.orderId in db.orders || NumberTaken(db, r.orderNumber) then Failure(DatabaseFailure)
    else if KeyTaken(db, r.userId, r.key) then Failure(IdempotencyConflict)
    else Success(db.(orders := db.orders[r.orderId := RowOf(r, d)], outbox := db.outbox + [OrderRecorded(r.orderId, PlacedEvent(d), Some(0))]))
  }

  function ClearCart(db: Db, userId: UserId): Db {
    db.(carts := db.carts[userId := []])
  }

  /** The whole transaction body. */
  function PlaceOrder(db: Db, r: Request): Result<Db, CheckoutError> {
    var reserved := ReserveStock(db, r.items);
    if reserved.Failure? then Failure(reserved.error)
    else
      var built := BuildOrder(db.products, reserved.value, r);
      if built.Failure? then Failure(built.error)
      else
        var saved := SaveOrder(built.value.1, r, built.value.0);
        if saved.Failure? then Failure(saved.error) else Success(ClearCart(saved.value, r.userId))
  }

  /** `unitOfWork.run`: commit on success, otherwise the tables are as before. */
  function Commit(db: Db, r: Request): Db {
    if PlaceOrder(db, r).Success? then PlaceOrder(db, r).value else db
  }
}
