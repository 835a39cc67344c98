/** The order aggregate: a draft that merges lines, is priced, placed once, and then only moves on. */
module OrderAggregate {
  import opened Wrappers
  import opened Money
  import opened Numbers
  import opened OrderStatus

  datatype OrderItem = OrderItem(productId: nat, productName: string, quantity: nat, unitPrice: Money)

  datatype OrderError =
    | NotMutable(placed: bool)
    | InvalidItem
    | InvalidDiscount
    | EmptyOrder
    | AlreadyPlaced
    | InvalidTransition(from: Status, to: Status)
    | NotCancellable(delivered: bool)
    | MoneyFailure(error: MoneyError)

  datatype Pricing = Pricing(tax: Money, shippingFee: Money, discountAmount: Money, discountCode: Option<string>)

  datatype OrderData = OrderData(items: seq<OrderItem>, status: Status, pricing: Pricing, placed: bool)

  datatype OrderEvent =
    | OrderPlaced(subtotal: nat, tax: nat, shippingFee: nat, total: nat, items: seq<OrderItem>)
    | OrderStatusChanged(oldStatus: Status, newStatus: Status)
    | OrderCancelled

  const ZERO: Money := Value(0, VND)
  const NO_PRICING := Pricing(ZERO, ZERO, ZERO, None)
  const DRAFT := OrderData([], PENDING, NO_PRICING, false)

  function Lift(r: Result<Money, MoneyError>): Result<Money, OrderError> {
    match r
    case Success(m) => Success(m)
    case Failure(e) => Failure(MoneyFailure(e))
  }

  function AddTo(sum: Result<Money, OrderError>, item: OrderItem): Result<Money, OrderError> {
    if sum.Failure? then sum
    else
      var total := Multiply(item.unitPrice, item.quantity as real);
      if total.Failure? then Lift(total) else Lift(Add(sum.value, total.value))
  }

  /** The running sum of the line totals; it throws as soon as it passes the safe range. */
  function Subtotal(items: seq<OrderItem>): Result<Money, OrderError> {
    if items == [] then Success(ZERO) else AddTo(Subtotal(items[..|items| - 1]), items[|items| - 1])
  }

  function Gross(d: OrderData): Result<Money, OrderError> {
    var subtotal := Subtotal(d.items);
    if subtotal.Failure? then subtotal
    else
      var taxed := Add(subtotal.value, d.pricing.tax);
      if taxed.Failure? then Lift(taxed) else Lift(Add(taxed.value, d.pricing.shippingFee))
  }

  function Total(d: OrderData): Result<Money, OrderError> {
    var gross := Gross(d);
    if gross.Failure? then gross
    else if d.pricing.discountAmount.amount > gross.value.amount then Failure(InvalidDiscount)
    else Lift(Subtract(gross.value, d.pricing.discountAmount))
  }

  function Frozen(d: OrderData): Option<OrderError> {
    if d.placed then Some(NotMutable(true))
    else if d.status != PENDING then Some(NotMutable(false))
    else None
  }

  function IndexOf(items: seq<OrderItem>, productId: nat): (i: nat)
    ensures i <= |items| && (forall k :: 0 <= k < i ==> items[k].productId != productId)
    ensures i < |items| ==> items[i].productId == productId
  {
    if items == [] then 0 else if items[0].productId == productId then 0 else 1 + IndexOf(items[1..], productId)
  }

  /** `addItem`: a known product is merged at its own price, a new one is appended. */
  function WithItem(d: OrderData, productId: nat, productName: string, quantity: int, unitPrice: Money): Result<OrderData, OrderError> {
    if Frozen(d).Some? then Failure(Frozen(d).value)
    else if quantity <= 0 || quantity > MAX_SAFE_INTEGER then Failure(InvalidItem)
    else
      var i := IndexOf(d.items, productId);
      if i == |d.items| then Success(d.(items := d.items + [OrderItem(productId, productName, quantity, unitPrice)]))
      else if d.items[i].unitPrice.amount != unitPrice.amount then Failure(InvalidItem)
      else if d.items[i].quantity + quantity > MAX_SAFE_INTEGER then Failure(InvalidItem)
      else Success(d.(items := d.items[i := d.items[i].(quantity := d.items[i].quantity + quantity)]))
  }

  function WithoutItem(d: OrderData, productId: nat): Result<OrderData, OrderError> {
    if Frozen(d).Some? then Failure(Frozen(d).value)
    else
      var i := IndexOf(d.items, productId);
      if i == |d.items| then Success(d) else Success(d.(items := d.items[..i] + d.items[i + 1..]))
  }

  function Priced(d: OrderData, pricing: Pricing): Result<OrderData, OrderError> {
    if Frozen(d).Some? then Failure(Frozen(d).value)
    else if Subtotal(d.items).Failure? then Failure(Subtotal(d.items).error)
    else if pricing.discountAmount.amount > Subtotal(d.items).value.amount then Failure(InvalidDiscount)
    else Success(d.(pricing := pricing))
  }

  function Placed(d: OrderData): Result<OrderData, OrderError> {
    if d.placed then Failure(AlreadyPlaced)
    else if d.status != PENDING then Failure(NotMutable(false))
    else if d.items == [] then Failure(EmptyOrder)
    else if Subtotal(d.items).Failure? then Failure(Subtotal(d.items).error)
    else if Total(d).Failure? then Failure(Total(d).error)
    else Success(d.(placed := true))
  }

  function Moved(d: OrderData, next: Status): Result<OrderData, OrderError> {
    if CanTransition(d.status, next) then Success(d.(status := next)) else Failure(InvalidTransition(d.status, next))
  }

  function Cancelled(d: OrderData): Result<OrderData, OrderError> {
    if d.status == DELIVERED then Failure(NotCancellable(true))
    else if d.status == CANCELLED then Failure(NotCancellable(false))
    else Moved(d, CANCELLED)
  }

  function PlacedEvent(d: OrderData): OrderEvent
    requires Total(d).Success?
  {
    OrderPlaced(Subtotal(d.items).value.amount, d.pricing.tax.amount, d.pricing.shippingFee.amount, Total(d).value.amount, d.items)
  }

  class Order {
    const id: nat
    const userId: nat
    var items: seq<OrderItem>
    var status: Status
    var pricing: Pricing
    var hasBeenPlaced: bool
    var domainEvents: seq<OrderEvent>
    var version: nat

    ghost function Data(): OrderData reads this { OrderData(items, status, pricing, hasBeenPlaced) }

    constructor Create(id: nat, userId: nat)
      ensures this.id == id && this.userId == userId && Data() == DRAFT && domainEvents == [] && version == 0
    {
      this.id, this.userId := id, userId;
      items, status, pricing, hasBeenPlaced := [], PENDING, NO_PRICING, false;
      domainEvents, version := [], 0;
    }

    /** A persisted order is already placed, whatever its status. */
    constructor Hydrate(id: nat, userId: nat, items: seq<OrderItem>, status: Status, pricing: Pricing, version: nat)
      ensures this.id == id && this.userId == userId && Data() == OrderData(items, status, pricing, true)
      ensures domainEvents == [] && this.version == version
    {
      this.id, this.userId := id, userId;
      this.items, this.status, this.pricing, hasBeenPlaced := items, status, pricing, true;
      domainEvents, this.version := [], version;
    }

    /** Draining the buffer hands over every event raised since the last drain, once. */
    method PullEvents() returns (events: seq<OrderEvent>)
      modifies this`domainEvents
      ensures events == old(domainEvents) && domainEvents == []
    {
      events := domainEvents;
      domainEvents := [];
    }

    method ComputeSubtotal() returns (r: Result<Money, OrderError>)
      ensures r == Subtotal(items)
    {
      var sum: Result<Money, OrderError> := Success(ZERO);
      var k := 0;
      while k < |items|
        invariant 0 <= k <= |items| && sum == Subtotal(items[..k])
      {
        assert items[..k + 1][..k] == items[..k];
        sum := AddTo(sum, items[k]);
        k := k + 1;
      }
      assert items[..k] == items;
      r := sum;
    }

    method AddItem(productId: nat, productName: string, quantity: int, unitPrice: Money) returns (r: Result<(), OrderError>)
      modifies this`items
      ensures match WithItem(old(Data()), productId, productName, quantity, unitPrice)
              case Success(d) => r.Success? && Data() == d
              case Failure(e) => r == Failure(e) && Data() == old(Data())
    {
      if hasBeenPlaced { return Failure(NotMutable(true)); }
      if status != PENDING { return Failure(NotMutable(false)); }
      if quantity <= 0 || quantity > MAX_SAFE_INTEGER { return Failure(InvalidItem); }
      var idx := IndexOf(items, productId);
      if idx < |items| {
        var existing := items[idx];
        if existing.unitPrice.amount != unitPrice.amount { return Failure(InvalidItem); }
        if existing.quantity + quantity > MAX_SAFE_INTEGER { return Failure(InvalidItem); }
        items := items[idx := OrderItem(existing.productId, existing.productName, existing.quantity + quantity, existing.unitPrice)];
      } else {
        items := items + [OrderItem(productId, productName, quantity, unitPrice)];
      }
      return Success(());
    }

    method RemoveItem(productId: nat) returns (r: Result<(), OrderError>)
      modifies this`items
      ensures match WithoutItem(old(Data()), productId)
              case Success(d) => r.Success? && Data() == d
              case Failure(e) => r == Failure(e) && Data() == old(Data())
    {
      if hasBeenPlaced { return Failure(NotMutable(true)); }
      if status != PENDING { return Failure(NotMutable(false)); }
      var idx := IndexOf(items, productId);
      if idx < |items| { items := items[..idx] + items[idx + 1..]; }
      return Success(());
    }

    method ApplyPricing(p: Pricing) returns (r: Result<(), OrderError>)
      modifies this`pricing
      ensures match Priced(old(Data()), p)
              case Success(d) => r.Success? && Data() == d
              case Failure(e) => r == Failure(e) && Data() == old(Data())
    {
      if hasBeenPlaced { return Failure(NotMutable(true)); }
      if status != PENDING { return Failure(NotMutable(false)); }
      var subtotal := ComputeSubtotal();
      if subtotal.Failure? { return Failure(subtotal.error); }
      if p.discountAmount.amount > subtotal.value.amount { return Failure(InvalidDiscount); }
      pricing := p;
      return Success(());
    }

    /** All derived money is validated before the placed state is committed. */
    method Place() returns (r: Result<(), OrderError>)
      modifies this`hasBeenPlaced, this`domainEvents
      ensures match Placed(old(Data()))
              case Success(d) => r.Success? && Data() == d && domainEvents == old(domainEvents) + [PlacedEvent(old(Data()))]
              case Failure(e) => r == Failure(e) && Data() == old(Data()) && domainEvents == old(domainEvents)
    {
      if hasBeenPlaced { return Failure(AlreadyPlaced); }
      if status != PENDING { return Failure(NotMutable(false)); }
      if |items| == 0 { return Failure(EmptyOrder); }
      var d := OrderData(items, status, pricing, hasBeenPlaced);
      var subtotal := ComputeSubtotal();
      if subtotal.Failure? { return Failure(subtotal.error); }
      var total := Total(d);
      if total.Failure? { return Failure(total.error); }
      hasBeenPlaced := true;
      domainEvents := domainEvents
        + [OrderPlaced(subtotal.value.amount, pricing.tax.amount, pricing.shippingFee.amount, total.value.amount, items)];
      return Success(());
    }

    method TransitionStatus(next: Status) returns (r: Result<(), OrderError>)
      modifies this`status, this`domainEvents
      ensures match Moved(old(Data()), next)
              case Success(d) => r.Success? && Data() == d
                                 && domainEvents == old(domainEvents) + [OrderStatusChanged(old(status), next)]
              case Failure(e) => r == Failure(e) && Data() == old(Data()) && domainEvents == old(domainEvents)
    {
      if !CanTransition(status, next) { return Failure(InvalidTransition(status, next)); }
      domainEvents := domainEvents + [OrderStatusChanged(status, next)];
      status := next;
      return Success(());
    }

    method Cancel() returns (r: Result<(), OrderError>)
      modifies this`status, this`domainEvents
      ensures match Cancelled(old(Data()))
              case Success(d) => r.Success? && Data() == d
                                 && domainEvents == old(domainEvents) + [OrderStatusChanged(old(status), CANCELLED), OrderCancelled]
              case Failure(e) => r == Failure(e) && Data() == old(Data()) && domainEvents == old(domainEvents)
    {
      if status == DELIVERED { return Failure(NotCancellable(true)); }
      if status == CANCELLED { return Failure(NotCancellable(false)); }
      r := TransitionStatus(CANCELLED);
      if r.Success? { domainEvents := domainEvents + [OrderCancelled]; }
    }
  }

  // ---------- what the functions above mean ----------

  /** The unbounded sum of quantity times price. */
  function Worth(items: seq<OrderItem>): nat {
    if items == [] then 0
    else Worth(items[..|items| - 1]) + items[|items| - 1].unitPrice.amount * items[|items| - 1].quantity
  }

  predicate AllVnd(items: seq<OrderItem>) {
    forall k | 0 <= k < |items| :: items[k].unitPrice.currency == VND
  }

  /** The subtotal is the exact worth, and throws exactly when that leaves the safe range. */
  lemma {:induction false} SubtotalIsWorth(items: seq<OrderItem>)
    requires AllVnd(items)
    ensures Subtotal(items) == if Worth(items) <= MAX_SAFE_INTEGER
                               then Success(Value(Worth(items), VND)) else Failure(MoneyFailure(UnsafeAmount))
  {
    if items != [] {
      var n := |items| - 1;
      SubtotalIsWorth(items[..n]);
      MultiplyExact(items[n].unitPrice, items[n].quantity);
      if Subtotal(items[..n]).Success? {
        var line := Multiply(items[n].unitPrice, items[n].quantity as real);
        if line.Success? { AddSubtractExact(Subtotal(items[..n]).value, line.value); }
      }
    }
  }

  lemma {:induction false} WorthUpdate(items: seq<OrderItem>, i: nat, item: OrderItem)
    requires i < |items|
    ensures Worth(items[i := item]) == Worth(items) - items[i].unitPrice.amount * items[i].quantity + item.unitPrice.amount * item.quantity
  {
    var n := |items| - 1;
    if i < n {
      WorthUpdate(items[..n], i, item);
      assert items[i := item][..n] == items[..n][i := item];
    } else {
      assert items[i := item][..n] == items[..n];
    }
  }

  predicate Contains(items: seq<OrderItem>, productId: nat) {
    exists k :: 0 <= k < |items| && items[k].productId == productId
  }

  /** The lines after an addition: the product's own line has more, or there is one new line. */
  predicate Merged(items: seq<OrderItem>, items': seq<OrderItem>, productId: nat, productName: string, quantity: int, unitPrice: Money) {
    if Contains(items, productId) then
      && |items'| == |items|
      && exists i :: && 0 <= i < |items| && items[i].productId == productId
                     && items' == items[i := items'[i]] && items'[i] == items[i].(quantity := items'[i].quantity)
                     && items'[i].quantity == items[i].quantity + quantity && items[i].unitPrice.amount == unitPrice.amount
    else
      && |items'| == |items| + 1 && items'[..|items|] == items
      && items'[|items|].productId == productId && items'[|items|].productName == productName
      && items'[|items|].quantity == quantity && items'[|items|].unitPrice == unitPrice
  }

  /**
   An addition is accepted exactly while the order is open, for a positive safe quantity whose sum
   with the product's own line is safe and at that line's price; nothing else of the order changes.
   */
  lemma AdditionsAreExact(d: OrderData, productId: nat, productName: string, quantity: int, unitPrice: Money)
    requires OnePerProduct(d.items)
    ensures WithItem(d, productId, productName, quantity, unitPrice).Success? <==>
              && !d.placed && d.status == PENDING && 0 < quantity <= MAX_SAFE_INTEGER
              && forall k :: 0 <= k < |d.items| && d.items[k].productId == productId ==>
                   d.items[k].unitPrice.amount == unitPrice.amount && d.items[k].quantity + quantity <= MAX_SAFE_INTEGER
    ensures WithItem(d, productId, productName, quantity, unitPrice).Success? ==>
              var d' := WithItem(d, productId, productName, quantity, unitPrice).value;
              d' == d.(items := d'.items) && Merged(d.items, d'.items, productId, productName, quantity, unitPrice)
  {
    var i := IndexOf(d.items, productId);
    if i < |d.items| { assert Contains(d.items, productId); }
  }

  lemma Distributes(price: int, q: int, quantity: int)
    ensures price * (q + quantity) == price * q + price * quantity
  {
  }

  /** Merging a line into an item of the same product or appending it adds the same worth. */
  lemma AddItemAddsItsWorth(d: OrderData, productId: nat, productName: string, quantity: int, unitPrice: Money)
    requires WithItem(d, productId, productName, quantity, unitPrice).Success?
    ensures Worth(WithItem(d, productId, productName, quantity, unitPrice).value.items)
         == Worth(d.items) + unitPrice.amount * quantity
  {
    var items' := WithItem(d, productId, productName, quantity, unitPrice).value.items;
    var i := IndexOf(d.items, productId);
    if i < |d.items| {
      WorthUpdate(d.items, i, items'[i]);
      Distributes(unitPrice.amount, d.items[i].quantity, quantity);
    } else {
      assert items'[..|items'| - 1] == d.items;
    }
  }

  predicate OnePerProduct(items: seq<OrderItem>) {
    forall i, j | 0 <= i < j < |items| :: items[i].productId != items[j].productId
  }

  lemma AddItemKeepsOnePerProduct(d: OrderData, productId: nat, productName: string, quantity: int, unitPrice: Money)
    requires OnePerProduct(d.items) && WithItem(d, productId, productName, quantity, unitPrice).Success?
    ensures OnePerProduct(WithItem(d, productId, productName, quantity, unitPrice).value.items)
  {
  }

  /** Removing a freshly added product restores the order; removing any product takes all of it. */
  lemma RemoveUndoesAdd(d: OrderData, productId: nat, productName: string, quantity: int, unitPrice: Money)
    requires OnePerProduct(d.items) && WithItem(d, productId, productName, quantity, unitPrice).Success?
    ensures var r := WithoutItem(WithItem(d, productId, productName, quantity, unitPrice).value, productId);
            && r.Success? && r.value.items == WithoutItem(d, productId).value.items
            && (forall k :: 0 <= k < |r.value.items| ==> r.value.items[k].productId != productId)
            && (IndexOf(d.items, productId) == |d.items| ==> r.value == d)
  {
    var i := IndexOf(d.items, productId);
    var items' := WithItem(d, productId, productName, quantity, unitPrice).value.items;
    assert items'[i].productId == productId && forall k :: 0 <= k < i ==> items'[k] == d.items[k];
    assert items'[..i] == d.items[..i];
    if i < |d.items| {
      assert items'[i + 1..] == d.items[i + 1..];
    } else {
      assert items'[i + 1..] == [] && items'[..i] + [] == d.items;
    }
  }

  /** Once placed, an order refuses every change to its lines, its pricing and its placement. */
  lemma PlacedOrdersAreFrozen(d: OrderData, productId: nat, name: string, quantity: int, price: Money, pricing: Pricing)
    requires Placed(d).Success?
    ensures var p := Placed(d).value;
            && p == d.(placed := true) && p.items != []
            && WithItem(p, productId, name, quantity, price) == Failure(NotMutable(true))
            && WithoutItem(p, productId) == Failure(NotMutable(true))
            && Priced(p, pricing) == Failure(NotMutable(true))
            && Placed(p) == Failure(AlreadyPlaced)
            && forall next :: Moved(p, next).Success? ==> Moved(p, next).value.placed && Moved(p, next).value.items == p.items
  {
  }

  /** The books balance: total plus discount is subtotal plus tax plus shipping. */
  lemma TotalsBalance(d: OrderData)
    requires AllVnd(d.items) && Total(d).Success?
    requires d.pricing.tax.currency == d.pricing.shippingFee.currency == d.pricing.discountAmount.currency == VND
    ensures Total(d).value.amount + d.pricing.discountAmount.amount
         == Worth(d.items) + d.pricing.tax.amount + d.pricing.shippingFee.amount
    ensures Total(d).value.currency == VND
  {
    SubtotalIsWorth(d.items);
    var subtotal := Subtotal(d.items).value;
    AddSubtractExact(subtotal, d.pricing.tax);
    AddSubtractExact(Add(subtotal, d.pricing.tax).value, d.pricing.shippingFee);
    AddSubtractExact(Gross(d).value, d.pricing.discountAmount);
  }

  /** A total exists exactly when no partial sum leaves the safe range and the discount fits. */
  lemma TotalSucceedsExactly(d: OrderData)
    requires AllVnd(d.items)
    requires d.pricing.tax.currency == d.pricing.shippingFee.currency == d.pricing.discountAmount.currency == VND
    ensures var gross := Worth(d.items) + d.pricing.tax.amount + d.pricing.shippingFee.amount;
            Total(d).Success? <==> gross <= MAX_SAFE_INTEGER && d.pricing.discountAmount.amount <= gross
  {
    SubtotalIsWorth(d.items);
    if Worth(d.items) <= MAX_SAFE_INTEGER {
      var subtotal := Subtotal(d.items).value;
      AddSubtractExact(subtotal, d.pricing.tax);
      if Add(subtotal, d.pricing.tax).Success? {
        AddSubtractExact(Add(subtotal, d.pricing.tax).value, d.pricing.shippingFee);
        if Gross(d).Success? { AddSubtractExact(Gross(d).value, d.pricing.discountAmount); }
      }
    }
  }

  /** An open order takes any pricing whose discount its lines are worth, and is placed when it has lines and a total. */
  lemma PlacingIsExact(d: OrderData, pricing: Pricing)
    requires AllVnd(d.items)
    ensures Priced(d, pricing).Success? <==>
              && !d.placed && d.status == PENDING
              && Worth(d.items) <= MAX_SAFE_INTEGER && pricing.discountAmount.amount <= Worth(d.items)
    ensures Priced(d, pricing).Success? ==> Priced(d, pricing).value == OrderData(d.items, d.status, pricing, d.placed)
    ensures Placed(d).Success? <==> !d.placed && d.status == PENDING && d.items != [] && Total(d).Success?
    ensures Placed(d).Success? ==> Placed(d).value == OrderData(d.items, d.status, d.pricing, true)
  {
    SubtotalIsWorth(d.items);
  }

  /** The event of a placed order carries its worth, its charges, what is due and its lines. */
  lemma PlacedEventIsRight(d: OrderData)
    requires AllVnd(d.items) && Total(d).Success?
    requires d.pricing.tax.currency == d.pricing.shippingFee.currency == d.pricing.discountAmount.currency == VND
    ensures PlacedEvent(d).subtotal == Worth(d.items) && PlacedEvent(d).items == d.items
    ensures PlacedEvent(d).tax == d.pricing.tax.amount && PlacedEvent(d).shippingFee == d.pricing.shippingFee.amount
    ensures PlacedEvent(d).total == Worth(d.items) + d.pricing.tax.amount + d.pricing.shippingFee.amount - d.pricing.discountAmount.amount
  {
    SubtotalIsWorth(d.items);
    TotalsBalance(d);
  }

  /** An order moves exactly along the life cycle and is cancelled exactly before its goods are shipped. */
  lemma MovesAreExact(d: OrderData, next: Status)
    ensures Moved(d, next) == if CanTransition(d.status, next) then Success(OrderData(d.items, next, d.pricing, d.placed))
                              else Failure(InvalidTransition(d.status, next))
    ensures Cancelled(d).Success? <==> Rank(d.status) <= 1
    ensures Cancelled(d).Success? ==> Cancelled(d).value == OrderData(d.items, CANCELLED, d.pricing, d.placed)
  {
    TransitionsAreExact(d.status, CANCELLED);
  }
}
