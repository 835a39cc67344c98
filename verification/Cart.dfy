/** The cart aggregate: a map of item objects that its mutators change in place. */
module Cart {
  import opened Wrappers
  import opened Numbers
  import opened Money
  import opened CartReplay

  datatype HydratedItem = HydratedItem(productId: ProductId, productName: string, price: Money, quantity: JsNumber)

  class CartItem {
    const productId: ProductId
    const productName: string
    const unitPrice: Money
    var quantity: int

    constructor(productId: ProductId, productName: string, unitPrice: Money, quantity: int)
      ensures this.productId == productId && this.productName == productName && this.unitPrice == unitPrice && this.quantity == quantity
    {
      this.productId, this.productName, this.unitPrice, this.quantity := productId, productName, unitPrice, quantity;
    }

    method Increase(amount: JsNumber) returns (r: Result<(), CartError>)
      modifies this
      ensures r.Success? <==> IsSafeInteger(amount) && amount.value > 0 && IsSafeInteger(Integer(old(quantity) + amount.value))
      ensures r.Failure? ==> r.error == InvalidQuantity
      ensures quantity == old(quantity) + (if r.Success? then amount.value else 0)
    {
      if !IsSafeInteger(amount) || amount.value <= 0 || !IsSafeInteger(Integer(quantity + amount.value)) {
        return Failure(InvalidQuantity);
      }
      quantity := quantity + amount.value;
      r := Success(());
    }

    /** The reverse of `Increase`, down to zero. */
    method Decrease(amount: JsNumber) returns (r: Result<(), CartError>)
      modifies this
      ensures r.Success? <==> IsSafeInteger(amount) && 0 < amount.value <= old(quantity)
      ensures r.Failure? ==> r.error == InvalidQuantity
      ensures quantity == old(quantity) - (if r.Success? then amount.value else 0)
    {
      if !IsSafeInteger(amount) || amount.value <= 0 { return Failure(InvalidQuantity); }
      if quantity - amount.value < 0 { return Failure(InvalidQuantity); }
      quantity := quantity - amount.value;
      r := Success(());
    }
  }

  class Cart {
    const id: nat
    const userId: nat
    var items: map<ProductId, CartItem>
    var domainEvents: seq<CartEvent>

    ghost function Quantities(): CartReplay.Quantities
      reads this, items.Values
    {
      map p | p in items :: items[p].quantity
    }

    /** Item objects are not shared between products, and every quantity is a positive safe integer. */
    ghost predicate Valid()
      reads this, items.Values
    {
      && (forall p, q :: p in items && q in items && items[p] == items[q] ==> p == q)
      && (forall p :: p in items ==> items[p].productId == p)
      && Positive(Quantities())
    }

    constructor Create(id: nat, userId: nat)
      ensures Valid() && this.id == id && this.userId == userId && items == map[] && domainEvents == []
    {
      this.id, this.userId, items, domainEvents := id, userId, map[], [];
    }

    ghost predicate Did(q: CartReplay.Quantities, events: seq<CartEvent>, effect: Effect)
      reads this, items.Values
    {
      Quantities() == effect.after && domainEvents == events + effect.raised
    }

    method AddItem(productId: ProductId, productName: string, unitPrice: Money, quantity: JsNumber) returns (r: Result<(), CartError>)
      requires Valid()
      modifies this, items.Values
      ensures Valid() && fresh(items.Values - old(items.Values))
      ensures match Perform(old(Quantities()), CartReplay.AddItem(productId, quantity))
              case Success(e) => r.Success? && Did(old(Quantities()), old(domainEvents), e)
              case Failure(e) => r == Failure(e) && Did(old(Quantities()), old(domainEvents), Effect(old(Quantities()), []))
      ensures r.Success? <==>
                && IsSafeInteger(quantity) && quantity.value > 0
                && (productId in old(items) ==> old(items[productId].quantity) + quantity.value <= MAX_SAFE_INTEGER)
      ensures if productId in old(items) || r.Failure? then items == old(items)
              else productId in items && items == old(items)[productId := items[productId]] && MadeFor(items[productId], productName, unitPrice)
      ensures r.Success? ==> items[productId].quantity == (if productId in old(items) then old(items[productId].quantity) else 0) + quantity.value
    {
      if !IsSafeInteger(quantity) || quantity.value <= 0 { return Failure(InvalidQuantity); }
      ghost var before := Quantities();
      assert productId in items ==> before[productId] == items[productId].quantity;
      r := Put(productId, productName, unitPrice, quantity);
      assert productId in items ==> Quantities()[productId] == items[productId].quantity;
      if r.Failure? { return; }
      Raise(ItemAdded(productId, quantity.value));
    }

    method Raise(e: CartEvent)
      requires Valid()
      modifies this`domainEvents
      ensures Valid() && Quantities() == old(Quantities()) && domainEvents == old(domainEvents) + [e]
    {
      domainEvents := domainEvents + [e];
    }

    /** A line keeps the name and the price it was made with. */
    predicate MadeFor(item: CartItem, productName: string, unitPrice: Money) {
      item.productName == productName && item.unitPrice == unitPrice
    }

    /** Merge into the product's item object, or add a new one. */
    method Put(productId: ProductId, productName: string, unitPrice: Money, quantity: JsNumber) returns (r: Result<(), CartError>)
      requires Valid() && IsSafeInteger(quantity) && quantity.value > 0
      modifies this`items, items.Values
      ensures Valid() && fresh(items.Values - old(items.Values))
      ensures r.Failure? ==> r.error == InvalidQuantity
      ensures r.Success? <==> Addition(old(Quantities()), productId, quantity).Success?
      ensures Quantities() == if r.Success? then Addition(old(Quantities()), productId, quantity).value.after else old(Quantities())
      ensures if productId in old(items) then items == old(items)
              else productId in items && items == old(items)[productId := items[productId]] && MadeFor(items[productId], productName, unitPrice)
    {
      if productId in items {
        r := Merge(productId, quantity);
      } else {
        var item := new CartItem(productId, productName, unitPrice, quantity.value);
        Set(item);
        r := Success(());
      }
    }

    method Merge(productId: ProductId, amount: JsNumber) returns (r: Result<(), CartError>)
      requires Valid() && productId in items && IsSafeInteger(amount) && amount.value > 0
      modifies items.Values
      ensures Valid() && (r.Failure? ==> r.error == InvalidQuantity)
      ensures r.Success? <==> old(Quantities())[productId] + amount.value <= MAX_SAFE_INTEGER
      ensures Quantities() == if r.Success? then old(Quantities())[productId := old(Quantities())[productId] + amount.value] else old(Quantities())
    {
      ghost var before := Quantities();
      var existing := items[productId];
      r := existing.Increase(amount);
      assert Quantities() == if r.Success? then before[productId := before[productId] + amount.value] else before;
    }

    method UpdateItemQuantity(productId: ProductId, quantity: JsNumber) returns (r: Result<(), CartError>)
      requires Valid()
      modifies this, items.Values
      ensures Valid() && items.Values <= old(items.Values)
      ensures match Perform(old(Quantities()), CartReplay.UpdateItemQuantity(productId, quantity))
              case Success(e) => r.Success? && Did(old(Quantities()), old(domainEvents), e)
              case Failure(e) => r == Failure(e) && Did(old(Quantities()), old(domainEvents), Effect(old(Quantities()), []))
      ensures r.Success? <==> IsSafeInteger(quantity) && quantity.value >= 0 && productId in old(items)
      ensures r.Success? && quantity.value > 0 ==>
                && items == old(items) && items[productId].quantity == quantity.value
                && domainEvents == old(domainEvents) + [ItemAdded(productId, quantity.value - old(items[productId].quantity))]
      ensures r.Success? && quantity.value == 0 ==> items == old(items) - {productId} && domainEvents == old(domainEvents) + [ItemRemoved(productId)]
      ensures forall p :: p in old(items) && p != productId ==> p in items && items[p] == old(items)[p] && items[p].quantity == old(items[p].quantity)
    {
      if !IsSafeInteger(quantity) || quantity.value < 0 { return Failure(InvalidQuantity); }
      if productId !in items { return Failure(ItemNotFound(productId)); }
      if quantity.value == 0 {
        RemoveItem(productId);
        return Success(());
      }
      ghost var before := Quantities();
      var existing := items[productId];
      var delta := quantity.value - existing.quantity;
      existing.quantity := quantity.value;
      assert Quantities() == before[productId := quantity.value];
      domainEvents := domainEvents + [ItemAdded(productId, delta)];
      r := Success(());
    }

    method RemoveItem(productId: ProductId)
      requires Valid()
      modifies this
      ensures Valid() && items == old(items) - {productId}
      ensures Did(old(Quantities()), old(domainEvents), Removal(old(Quantities()), productId))
    {
      if productId !in items {
        assert items - {productId} == items;
        return;
      }
      ghost var before := Quantities();
      items := items - {productId};
      assert Quantities() == before - {productId};
      domainEvents := domainEvents + [ItemRemoved(productId)];
    }

    method Clear()
      requires Valid()
      modifies this
      ensures Valid() && items == map[]
      ensures Did(old(Quantities()), old(domainEvents), Emptying(old(Quantities())))
    {
      assert Quantities().Keys == items.Keys;
      if |items| == 0 { return; }
      items := map[];
      domainEvents := domainEvents + [Cleared];
    }

    /** The line is what this row says. */
    static predicate Restores(item: CartItem, row: HydratedItem)
      reads item
    {
      && item.productId == row.productId && item.productName == row.productName && item.unitPrice == row.price
      && row.quantity == Integer(item.quantity)
    }

    /** Persisted items are set one by one; a later duplicate wins, an invalid quantity is refused. */
    static method Hydrate(id: nat, userId: nat, data: seq<HydratedItem>) returns (r: Result<Cart, CartError>)
      ensures r.Success? <==> forall k :: 0 <= k < |data| ==> IsSafeInteger(data[k].quantity) && data[k].quantity.value > 0
      ensures r.Success? ==> fresh(r.value) && fresh(r.value.items.Values) && r.value.Valid() && r.value.domainEvents == []
      ensures r.Success? ==> r.value.Quantities() == Persisted(data)
      ensures r.Success? ==> r.value.id == id && r.value.userId == userId
      ensures r.Success? ==> forall p :: p in r.value.items ==> exists k :: 0 <= k < |data| && Restores(r.value.items[p], data[k])
    {
      var cart := new Cart.Create(id, userId);
      for k := 0 to |data|
        invariant fresh(cart) && fresh(cart.items.Values) && cart.Valid() && cart.domainEvents == []
        invariant forall j :: 0 <= j < k ==> IsSafeInteger(data[j].quantity) && data[j].quantity.value > 0
        invariant cart.Quantities() == Persisted(data[..k])
        invariant cart.id == id && cart.userId == userId
        invariant forall p :: p in cart.items ==> exists j :: 0 <= j < k && Restores(cart.items[p], data[j])
      {
        var item := data[k];
        if !IsSafeInteger(item.quantity) || item.quantity.value <= 0 { return Failure(InvalidQuantity); }
        assert data[..k + 1][..k] == data[..k];
        var row := cart.Restore(item);
      }
      assert data[..|data|] == data;
      r := Success(cart);
    }

    method Restore(row: HydratedItem) returns (item: CartItem)
      requires Valid() && IsSafeInteger(row.quantity) && row.quantity.value > 0
      modifies this`items
      ensures Valid() && fresh(item) && items == old(items)[row.productId := item] && Restores(item, row)
      ensures items.Values <= old(items.Values) + {item}
      ensures Quantities() == old(Quantities())[row.productId := row.quantity.value]
    {
      item := new CartItem(row.productId, row.productName, row.price, row.quantity.value);
      Set(item);
    }

    method Set(item: CartItem)
      requires Valid() && item !in items.Values && 0 < item.quantity <= MAX_SAFE_INTEGER
      modifies this`items
      ensures Valid() && items == old(items)[item.productId := item]
      ensures items.Values <= old(items.Values) + {item}
      ensures Quantities() == old(Quantities())[item.productId := item.quantity]
    {
      ghost var before := Quantities();
      items := items[item.productId := item];
      assert Quantities() == before[item.productId := item.quantity];
    }
  }

  function Persisted(data: seq<HydratedItem>): CartReplay.Quantities {
    if data == [] then map[]
    else
      var last := data[|data| - 1];
      Persisted(data[..|data| - 1])[last.productId := if last.quantity.Integer? then last.quantity.value else 0]
  }
}
