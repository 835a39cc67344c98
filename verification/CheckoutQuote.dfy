/** The quote and the checkout agree on every amount, so a quoted total is never refused as stale. */
module CheckoutQuote {
  import opened Wrappers
  import opened Money
  import opened Numbers
  import opened OrderStatus
  import opened OrderAggregate
  import opened CheckoutModel
  import opened CheckoutConservation

  datatype Quoted = Quoted(subtotal: Money, pricing: Pricing, total: Money)

  function LiftMoney(r: Result<Money, MoneyError>): Result<Money, CheckoutError> {
    if r.Success? then Success(r.value) else Failure(OrderFailure(MoneyFailure(r.error)))
  }

  /** One turn of the quote's loop; the foreign key rules out the missing product. */
  function QuoteLine(products: map<ProductId, ProductRow>, sum: Result<Money, CheckoutError>, item: CartItem): Result<Money, CheckoutError> {
    if sum.Failure? then sum
    else if item.productId !in products then Failure(ProductNotFound(item.productId))
    else
      var p := products[item.productId];
      if !p.isActive || p.stock < item.quantity then Failure(Unavailable(item.productId))
      else
        var line := Multiply(p.price, item.quantity as real);
        if line.Failure? then LiftMoney(line) else LiftMoney(Add(sum.value, line.value))
  }

  function QuoteSum(products: map<ProductId, ProductRow>, items: seq<CartItem>): Result<Money, CheckoutError> {
    if items == [] then Success(ZERO) else QuoteLine(products, QuoteSum(products, items[..|items| - 1]), items[|items| - 1])
  }

  /** Subtotal plus tax plus shipping less the discount. */
  function Payable(subtotal: Money, p: Pricing): Result<Money, MoneyError> {
    var taxed := Add(subtotal, p.tax);
    if taxed.Failure? then taxed
    else
      var gross := Add(taxed.value, p.shippingFee);
      if gross.Failure? then gross else Subtract(gross.value, p.discountAmount)
  }

  function QuotePriced(db: Db, subtotal: Money, code: Option<Code>, enabled: bool): Result<Quoted, CheckoutError> {
    var price := Price(db, subtotal, code, enabled, false);
    if price.Failure? then Failure(price.error)
    else
      var total := LiftMoney(Payable(subtotal, price.value.0));
      if total.Failure? then Failure(total.error) else Success(Quoted(subtotal, price.value.0, total.value))
  }

  /** The cart and its products are read first, the discounts in a transaction of their own. */
  function Quote(products: map<ProductId, ProductRow>, db: Db, items: seq<CartItem>, code: Option<Code>, enabled: bool): Result<Quoted, CheckoutError> {
    if items == [] then Failure(EmptyCart)
    else
      var subtotal := QuoteSum(products, items);
      if subtotal.Failure? then Failure(subtotal.error) else QuotePriced(db, subtotal.value, code, enabled)
  }

  // ---------- pricing in its two modes ----------

  /**
   Previewing succeeds exactly when consuming does, with the same amounts, and changes nothing;
   a discount without room is the only case in which the two report different errors.
   */
  lemma PreviewAgrees(db: Db, subtotal: Dong, code: Option<Code>, enabled: bool)
    ensures var preview, consuming := Price(db, subtotal, code, enabled, false), Price(db, subtotal, code, enabled, true);
            && (preview.Success? <==> consuming.Success?)
            && (preview.Success? ==> preview.value == (consuming.value.0, db))
            && (preview.Failure? ==> consuming.error == if preview.error.UsageLimitReached? then DiscountConflict else preview.error)
  {
  }

  lemma PricesAreCapped(db: Db, subtotal: Dong, code: Option<Code>, enabled: bool, consume: bool)
    requires Price(db, subtotal, code, enabled, consume).Success?
    ensures var p := Price(db, subtotal, code, enabled, consume).value.0;
            p.discountAmount.amount <= subtotal.amount && p.tax.currency == p.shippingFee.currency == p.discountAmount.currency == VND
  {
  }

  /** Pricing looks at the discounts and the clock only, so the stock taken meanwhile is irrelevant. */
  lemma PriceIgnoresStock(db: Db, other: Db, subtotal: Dong, code: Option<Code>, enabled: bool)
    requires other.discounts == db.discounts && other.now == db.now
    ensures var p, q := Price(db, subtotal, code, enabled, true), Price(other, subtotal, code, enabled, true);
            && (p.Success? <==> q.Success?) && (p.Success? ==> p.value.0 == q.value.0)
            && (p.Failure? ==> p.error == q.error)
  {
  }

  // ---------- the running sum and the merged order ----------

  predicate Available(products: map<ProductId, ProductRow>, item: CartItem) {
    item.productId in products && products[item.productId].isActive && item.quantity <= products[item.productId].stock
  }

  /** The unbounded worth of the cart's lines. */
  function CartWorth(products: map<ProductId, ProductRow>, items: seq<CartItem>): int {
    if items == [] then 0
    else
      var last := items[|items| - 1];
      CartWorth(products, items[..|items| - 1]) + (if last.productId in products then products[last.productId].price.amount * last.quantity else 0)
  }

  /** A successful quote sums the exact worth of lines that are all available. */
  lemma {:induction false} QuoteSumIsWorth(products: map<ProductId, ProductRow>, items: seq<CartItem>)
    requires QuoteSum(products, items).Success?
    ensures 0 <= CartWorth(products, items) && QuoteSum(products, items) == Success(Value(CartWorth(products, items), VND))
    ensures forall k :: 0 <= k < |items| ==> Available(products, items[k]) && items[k].quantity >= 0
    decreases |items|
  {
    if items != [] {
      var n := |items| - 1;
      var front, last := items[..n], items[n];
      QuoteSumIsWorth(products, front);
      assert forall k :: 0 <= k < n ==> items[k] == front[k];
      var price := products[last.productId].price;
      NegativeFactorFails(price, last.quantity);
      MultiplyExact(price, last.quantity);
      AddSubtractExact(QuoteSum(products, front).value, Multiply(price, last.quantity as real).value);
    }
  }

  lemma NegativeFactorFails(a: Money, quantity: int)
    requires Multiply(a, quantity as real).Success?
    ensures quantity >= 0
  {
  }

  /** Every line of the draft carries its product's current name and price. */
  predicate CurrentPrices(products: map<ProductId, ProductRow>, d: OrderData) {
    forall k :: 0 <= k < |d.items| ==>
      && d.items[k].productId in products && d.items[k].unitPrice == products[d.items[k].productId].price
      && d.items[k].productName == products[d.items[k].productId].name
  }

  lemma CartWorthCons(products: map<ProductId, ProductRow>, items: seq<CartItem>)
    requires items != [] && items[0].productId in products
    ensures CartWorth(products, items) == products[items[0].productId].price.amount * items[0].quantity + CartWorth(products, items[1..])
    decreases |items|
  {
    var n := |items| - 1;
    if n > 0 {
      CartWorthCons(products, items[..n]);
      assert items[..n][1..] == items[1..][..n - 1];
    } else {
      assert items[..n] == [] && items[1..] == [];
    }
  }

  lemma {:induction false} MergedWorth(products: map<ProductId, ProductRow>, d: OrderData, items: seq<CartItem>)
    requires AddLines(products, d, items).Success? && CurrentPrices(products, d)
    ensures var d' := AddLines(products, d, items).value;
            Worth(d'.items) == Worth(d.items) + CartWorth(products, items) && CurrentPrices(products, d')
    decreases |items|
  {
    if items != [] {
      var item := items[0];
      var p := products[item.productId];
      AddItemAddsItsWorth(d, item.productId, p.name, item.quantity, p.price);
      MergedWorth(products, AddLine(products, d, item).value, items[1..]);
      CartWorthCons(products, items);
    }
  }

  /** For any cart, repeated products included, the merged order's subtotal is the quote's sum. */
  lemma MergedSubtotalIsQuoted(products: map<ProductId, ProductRow>, items: seq<CartItem>)
    requires AddLines(products, DRAFT, items).Success? && QuoteSum(products, items).Success?
    ensures Subtotal(AddLines(products, DRAFT, items).value.items) == Success(QuoteSum(products, items).value)
  {
    var d := AddLines(products, DRAFT, items).value;
    MergedWorth(products, DRAFT, items);
    QuoteSumIsWorth(products, items);
    SubtotalIsWorth(d.items);
  }

  // ---------- when the lines can be merged ----------

  predicate Draft(products: map<ProductId, ProductRow>, d: OrderData) {
    && Frozen(d).None? && OnePerProduct(d.items) && CurrentPrices(products, d)
    && forall k :: 0 <= k < |d.items| ==> 0 < d.items[k].quantity <= MAX_SAFE_INTEGER
  }

  lemma {:induction false} HeldQuantity(items: seq<OrderItem>, p: ProductId)
    requires OnePerProduct(items)
    ensures InOrder(items, p) == if IndexOf(items, p) < |items| then items[IndexOf(items, p)].quantity else 0
    decreases |items|
  {
    if items != [] {
      var n := |items| - 1;
      var i, j := IndexOf(items, p), IndexOf(items[..n], p);
      HeldQuantity(items[..n], p);
      if j < n {
        assert items[j].productId == p;
        assert i == j;
      } else {
        assert forall k :: 0 <= k < n ==> items[k] == items[..n][k];
      }
    }
  }

  lemma {:induction false} InCartNonnegative(items: seq<CartItem>, p: ProductId)
    requires forall k :: 0 <= k < |items| ==> items[k].quantity > 0
    ensures InCart(items, p) >= 0
  {
    if items != [] { InCartNonnegative(items[1..], p); }
  }

  /** No line is empty and no product's merged quantity leaves the safe range. */
  ghost predicate Mergeable(products: map<ProductId, ProductRow>, d: OrderData, items: seq<CartItem>) {
    && (forall k :: 0 <= k < |items| ==> items[k].productId in products && items[k].quantity > 0)
    && (forall p :: Mentions(items, p) ==> InOrder(d.items, p) + InCart(items, p) <= MAX_SAFE_INTEGER)
  }

  lemma AddLineFits(products: map<ProductId, ProductRow>, d: OrderData, item: CartItem)
    requires Draft(products, d)
    ensures AddLine(products, d, item).Success? <==>
              item.productId in products && item.quantity > 0 && InOrder(d.items, item.productId) + item.quantity <= MAX_SAFE_INTEGER
    ensures AddLine(products, d, item).Success? ==> Draft(products, AddLine(products, d, item).value)
  {
    HeldQuantity(d.items, item.productId);
  }

  lemma MergeableCons(products: map<ProductId, ProductRow>, d: OrderData, d': OrderData, items: seq<CartItem>)
    requires items != [] && items[0].quantity > 0
    requires forall p :: InOrder(d'.items, p) == InOrder(d.items, p) + (if items[0].productId == p then items[0].quantity else 0)
    requires items[0].productId in products && InOrder(d'.items, items[0].productId) <= MAX_SAFE_INTEGER
    ensures Mergeable(products, d, items) <==> Mergeable(products, d', items[1..])
  {
    var first, rest := items[0].productId, items[1..];
    assert forall k :: 0 <= k < |rest| ==> rest[k] == items[k + 1];
    if Mergeable(products, d, items) {
      forall p | Mentions(rest, p) ensures InOrder(d'.items, p) + InCart(rest, p) <= MAX_SAFE_INTEGER { MentionsCons(items, p); }
    }
    if Mergeable(products, d', rest) {
      forall p | Mentions(items, p) ensures InOrder(d.items, p) + InCart(items, p) <= MAX_SAFE_INTEGER {
        MentionsCons(items, p);
        if !Mentions(rest, p) { UnmentionedIsZero(rest, p); }
      }
      forall k | 0 <= k < |items| ensures items[k].productId in products && items[k].quantity > 0 {
        if k > 0 { assert items[k] == rest[k - 1]; }
      }
    }
  }

  lemma FirstLineFits(products: map<ProductId, ProductRow>, d: OrderData, items: seq<CartItem>)
    requires items != []
    ensures Mergeable(products, d, items) ==>
              && items[0].productId in products && items[0].quantity > 0
              && InOrder(d.items, items[0].productId) + items[0].quantity <= MAX_SAFE_INTEGER
  {
    if Mergeable(products, d, items) {
      MentionsCons(items, items[0].productId);
      assert forall k :: 0 <= k < |items[1..]| ==> items[1..][k] == items[k + 1];
      InCartNonnegative(items[1..], items[0].productId);
    }
  }

  /** Merging succeeds exactly for non-empty lines of known products whose merged quantities are safe. */
  lemma {:induction false} MergeSucceedsExactly(products: map<ProductId, ProductRow>, d: OrderData, items: seq<CartItem>)
    requires Draft(products, d)
    ensures AddLines(products, d, items).Success? <==> Mergeable(products, d, items)
    decreases |items|
  {
    if items != [] {
      var item := items[0];
      AddLineFits(products, d, item);
      if AddLine(products, d, item).Success? {
        var d' := AddLine(products, d, item).value;
        forall p ensures InOrder(d'.items, p) == InOrder(d.items, p) + (if item.productId == p then item.quantity else 0) {
          AddLineAdds(products, d, item, p);
        }
        MergeableCons(products, d, d', items);
        MergeSucceedsExactly(products, d', items[1..]);
      } else {
        FirstLineFits(products, d, items);
      }
    }
  }

  // ---------- quote, then check out ----------

  lemma QuoteBalances(products: map<ProductId, ProductRow>, db: Db, items: seq<CartItem>, code: Option<Code>, enabled: bool)
    requires Quote(products, db, items, code, enabled).Success?
    ensures var q := Quote(products, db, items, code, enabled).value;
            && q.total.amount + q.pricing.discountAmount.amount
               == q.subtotal.amount + q.pricing.tax.amount + q.pricing.shippingFee.amount
            && q.pricing.discountAmount.amount <= q.subtotal.amount == CartWorth(products, items)
            && q.subtotal.currency == VND && FairPrice(db.discounts, q.subtotal, code, enabled, q.pricing)
  {
    var q := Quote(products, db, items, code, enabled).value;
    QuoteSumIsWorth(products, items);
    PricesAreRight(db, q.subtotal, code, enabled, false);
    PricesAreCapped(db, q.subtotal, code, enabled, false);
    AddSubtractExact(q.subtotal, q.pricing.tax);
    var taxed := Add(q.subtotal, q.pricing.tax).value;
    AddSubtractExact(taxed, q.pricing.shippingFee);
    AddSubtractExact(Add(taxed, q.pricing.shippingFee).value, q.pricing.discountAmount);
  }

  /** The order computes its total the way the quote does. */
  lemma TotalIsPayable(d: OrderData, subtotal: Dong)
    requires Subtotal(d.items) == Success(subtotal) && d.pricing.discountAmount.amount <= subtotal.amount
    requires d.pricing.tax.currency == d.pricing.shippingFee.currency == d.pricing.discountAmount.currency == VND
    requires Payable(subtotal, d.pricing).Success?
    ensures Total(d) == Success(Payable(subtotal, d.pricing).value)
  {
    AddSubtractExact(subtotal, d.pricing.tax);
    var taxed := Add(subtotal, d.pricing.tax).value;
    AddSubtractExact(taxed, d.pricing.shippingFee);
    AddSubtractExact(Add(taxed, d.pricing.shippingFee).value, d.pricing.discountAmount);
  }

  /** In the state of the quote, whatever stock was reserved, merged lines price to the quoted amounts. */
  lemma QuotedOrderBuilds(db: Db, reserved: Db, r: Request)
    requires Quote(db.products, db, r.items, r.code, r.discountsEnabled).Success?
    requires reserved.discounts == db.discounts && reserved.now == db.now
    requires r.expectedTotal.Some? ==> r.expectedTotal.value == Quote(db.products, db, r.items, r.code, r.discountsEnabled).value.total.amount
    ensures BuildOrder(db.products, reserved, r).Success? <==> r.detailsValid && Mergeable(db.products, DRAFT, r.items)
    ensures BuildOrder(db.products, reserved, r).Failure? ==> !BuildOrder(db.products, reserved, r).error.TotalChanged?
    ensures BuildOrder(db.products, reserved, r).Success? ==>
              var q, d := Quote(db.products, db, r.items, r.code, r.discountsEnabled).value, BuildOrder(db.products, reserved, r).value.0;
              d.pricing == q.pricing && Subtotal(d.items) == Success(q.subtotal) && Total(d) == Success(q.total)
  {
    var q := Quote(db.products, db, r.items, r.code, r.discountsEnabled).value;
    MergeSucceedsExactly(db.products, DRAFT, r.items);
    if r.detailsValid && Mergeable(db.products, DRAFT, r.items) {
      var d := AddLines(db.products, DRAFT, r.items).value;
      MergedSubtotalIsQuoted(db.products, r.items);
      QuoteSumIsWorth(db.products, r.items);
      PreviewAgrees(db, q.subtotal, r.code, r.discountsEnabled);
      PriceIgnoresStock(db, reserved, q.subtotal, r.code, r.discountsEnabled);
      PricesAreCapped(db, q.subtotal, r.code, r.discountsEnabled, false);
      TotalIsPayable(d.(pricing := q.pricing), q.subtotal);
      DraftStaysOpen(db.products, DRAFT, r.items);
    } else if r.detailsValid {
      LineErrors(db.products, DRAFT, r.items);
    }
  }

  lemma {:induction false} DraftStaysOpen(products: map<ProductId, ProductRow>, d: OrderData, items: seq<CartItem>)
    requires Frozen(d).None? && AddLines(products, d, items).Success?
    ensures var d' := AddLines(products, d, items).value;
            d' == d.(items := d'.items) && |d'.items| >= |d.items| && (items != [] ==> d'.items != [])
    decreases |items|
  {
    if items != [] { DraftStaysOpen(products, AddLine(products, d, items[0]).value, items[1..]); }
  }

  predicate PositiveAndSafe(items: seq<CartItem>) {
    forall k :: 0 <= k < |items| ==> 0 < items[k].quantity <= MAX_SAFE_INTEGER
  }

  /** What can still fail once the cart has been quoted: none of it is about prices or totals. */
  predicate Placeable(db: Db, r: Request) {
    && r.detailsValid && DistinctProducts(r.items) && PositiveAndSafe(r.items)
    && r.orderId !in db.orders && !NumberTaken(db, r.orderNumber) && !KeyTaken(db, r.userId, r.key)
  }

  lemma DistinctIsMergeable(products: map<ProductId, ProductRow>, items: seq<CartItem>)
    requires DistinctProducts(items) && forall k :: 0 <= k < |items| ==> items[k].productId in products
    ensures Mergeable(products, DRAFT, items) <==> PositiveAndSafe(items)
  {
    if PositiveAndSafe(items) {
      forall p | Mentions(items, p) ensures InOrder(DRAFT.items, p) + InCart(items, p) <= MAX_SAFE_INTEGER { DistinctInCart(items, p); }
    }
    if Mergeable(products, DRAFT, items) {
      forall k | 0 <= k < |items| ensures items[k].quantity <= MAX_SAFE_INTEGER {
        var p := items[k].productId;
        assert Mentions(items, p);
        DistinctInCart(items, p);
        assert InOrder(DRAFT.items, p) == 0;
      }
    }
  }

  lemma QuotedStockReserves(db: Db, items: seq<CartItem>)
    requires items != [] && QuoteSum(db.products, items).Success?
    ensures ReserveStock(db, items).Success? <==> DistinctProducts(items) && forall k :: 0 <= k < |items| ==> items[k].quantity > 0
    ensures ReserveStock(db, items).Failure? ==> !ReserveStock(db, items).error.TotalChanged?
  {
    QuoteSumIsWorth(db.products, items);
    CheckedItemsExist(db.products, items);
    ReserveIsExact(db, items);
    CheckErrors(db.products, items);
    forall item | item in items ensures CheckItem(db.products, item).None? <==> item.quantity > 0 {
      var k :| 0 <= k < |items| && items[k] == item;
      assert Available(db.products, items[k]);
    }
    if CheckAll(db.products, items).None? { LoopFailsOnRepeats(db.products, db, items, {}); }
  }

  /** Once the order is built, only taken ids or a taken key stop it, and the row repeats its amounts. */
  lemma SavesExactly(db: Db, r: Request)
    requires ReserveStock(db, r.items).Success? && BuildOrder(db.products, ReserveStock(db, r.items).value, r).Success?
    ensures PlaceOrder(db, r).Success? <==> r.orderId !in db.orders && !NumberTaken(db, r.orderNumber) && !KeyTaken(db, r.userId, r.key)
    ensures PlaceOrder(db, r).Failure? ==> !PlaceOrder(db, r).error.TotalChanged?
    ensures PlaceOrder(db, r).Success? ==>
              && r.orderId in PlaceOrder(db, r).value.orders
              && var d, row := BuildOrder(db.products, ReserveStock(db, r.items).value, r).value.0, PlaceOrder(db, r).value.orders[r.orderId];
                 && row.pricing == d.pricing && Subtotal(d.items).Success? && row.subtotal == Subtotal(d.items).value.amount
                 && Total(d).Success? && row.total == Total(d).value.amount
  {
    ReserveIsExact(db, r.items);
    var reserved := ReserveStock(db, r.items).value;
    BuildKeepsLines(db.products, reserved, r);
    var (d, priced) := BuildOrder(db.products, reserved, r).value;
    PriceEffect(reserved, Subtotal(d.items).value, r.code, r.discountsEnabled);
    assert priced.orders == db.orders;
  }

  /**
   A checkout that sends back the total it was quoted, or none, in the state it was quoted in, is never
   told that the total changed; it succeeds exactly when the cart lists each product once with a
   positive quantity and the details, the ids and the key are acceptable, and the stored order
   then carries the quoted amounts.
   */
  lemma QuotedTotalIsAccepted(db: Db, r: Request)
    requires Quote(db.products, db, r.items, r.code, r.discountsEnabled).Success?
    requires r.expectedTotal.Some? ==> r.expectedTotal.value == Quote(db.products, db, r.items, r.code, r.discountsEnabled).value.total.amount
    ensures PlaceOrder(db, r).Success? <==> Placeable(db, r)
    ensures PlaceOrder(db, r).Failure? ==> !PlaceOrder(db, r).error.TotalChanged?
    ensures PlaceOrder(db, r).Success? ==>
              var q, row := Quote(db.products, db, r.items, r.code, r.discountsEnabled).value, PlaceOrder(db, r).value.orders[r.orderId];
              row.subtotal == q.subtotal.amount && row.total == q.total.amount && row.pricing == q.pricing
  {
    QuotedStockReserves(db, r.items);
    if ReserveStock(db, r.items).Success? {
      ReserveIsExact(db, r.items);
      var reserved := ReserveStock(db, r.items).value;
      QuotedOrderBuilds(db, reserved, r);
      QuoteSumIsWorth(db.products, r.items);
      DistinctIsMergeable(db.products, r.items);
      if BuildOrder(db.products, reserved, r).Success? { SavesExactly(db, r); }
    }
  }

  // ---------- what is charged ----------

  /** The discount before rounding and capping. */
  function ExactDiscount(d: DiscountRow, subtotal: Dong): real {
    if d.kind.PERCENTAGE? then Scaled(subtotal.amount as real, d.value / 100.0) else d.value
  }

  /** A code is usable when it is active, unexpired, earned, not used up, and worth a valid amount. */
  predicate Usable(db: Db, subtotal: Dong, code: Code) {
    && code in db.discounts
    && var d := db.discounts[code];
       && d.isActive && (d.expiresAt.Some? ==> db.now <= d.expiresAt.value)
       && (d.minOrderAmount.Some? ==> d.minOrderAmount.value <= subtotal.amount)
       && (d.maxUses.Some? ==> d.usedCount < d.maxUses.value)
       && d.value >= 0.0 && Round(ExactDiscount(d, subtotal)) <= MAX_SAFE_INTEGER
  }

  lemma ScaledNonnegative(amount: real, factor: real)
    requires amount >= 0.0 && factor >= 0.0
    ensures Scaled(amount, factor) >= 0.0
  {
  }

  lemma DiscountIsValidExactly(d: DiscountRow, subtotal: Dong)
    ensures RawDiscount(d, subtotal).Success? <==> d.value >= 0.0 && Round(ExactDiscount(d, subtotal)) <= MAX_SAFE_INTEGER
  {
    var factor := d.value / 100.0;
    assert factor >= 0.0 <==> d.value >= 0.0;
    if d.kind.PERCENTAGE? && factor >= 0.0 { ScaledNonnegative(subtotal.amount as real, factor); }
  }

  /** Pricing succeeds exactly without a code or with a usable one. */
  lemma PriceSucceedsExactly(db: Db, subtotal: Dong, code: Option<Code>, enabled: bool, consume: bool)
    ensures Price(db, subtotal, code, enabled, consume).Success? <==>
              (code.Some? && code.value != "" && enabled ==> Usable(db, subtotal, code.value))
  {
    if code.Some? && code.value in db.discounts { DiscountIsValidExactly(db.discounts[code.value], subtotal); }
  }

  /**
   A fair price: a tenth in tax, free shipping from the threshold, and for a code that is given
   while discounts are on, that code with its discount, rounded half up and capped by the subtotal.
   */
  predicate FairPrice(discounts: map<Code, DiscountRow>, subtotal: Dong, code: Option<Code>, enabled: bool, p: Pricing) {
    && -5 < 10 * p.tax.amount - subtotal.amount <= 5
    && p.shippingFee.amount == (if subtotal.amount >= 500_000 then 0 else 30_000)
    && p.tax.currency == p.shippingFee.currency == p.discountAmount.currency == "VND"
    && if code.Some? && code.value != "" && enabled then
         && p.discountCode == code && code.value in discounts
         && var exact := ExactDiscount(discounts[code.value], subtotal);
            && p.discountAmount.amount <= subtotal.amount
            && p.discountAmount.amount as real - exact <= 0.5
            && (p.discountAmount.amount < subtotal.amount ==> -0.5 < p.discountAmount.amount as real - exact)
       else p.discountCode == None && p.discountAmount.amount == 0
  }

  /** The discount rows after pricing: one more use of the honoured code when it is consumed. */
  predicate UsageAfter(discounts: map<Code, DiscountRow>, discounts': map<Code, DiscountRow>, code: Option<Code>, enabled: bool, consume: bool) {
    && discounts'.Keys == discounts.Keys
    && forall c :: c in discounts ==>
         var used := discounts[c].usedCount + (if consume && enabled && c != "" && code == Some(c) then 1 else 0);
         discounts'[c] == discounts[c].(usedCount := used)
  }

  lemma TaxIsATenth(subtotal: Dong)
    ensures -5 < 10 * Tax(subtotal).amount - subtotal.amount <= 5
  {
    RoundIsHalfUp(Scaled(subtotal.amount as real, TAX_RATE), 0);
  }

  /** Every price is fair, and only consuming the honoured code changes a table: its use count. */
  lemma PricesAreRight(db: Db, subtotal: Dong, code: Option<Code>, enabled: bool, consume: bool)
    requires Price(db, subtotal, code, enabled, consume).Success?
    ensures var (p, db') := Price(db, subtotal, code, enabled, consume).value;
            && FairPrice(db.discounts, subtotal, code, enabled, p)
            && db' == db.(discounts := db'.discounts) && UsageAfter(db.discounts, db'.discounts, code, enabled, consume)
  {
    TaxIsATenth(subtotal);
    if code.Some? && code.value != "" && enabled {
      RoundIsHalfUp(ExactDiscount(db.discounts[code.value], subtotal), 0);
    }
  }

  /** A refused code is told the first thing that is wrong with it. */
  predicate Objects(db: Db, subtotal: Dong, code: Code, consume: bool, e: CheckoutError) {
    if code !in db.discounts || !db.discounts[code].isActive then e == InvalidCode
    else
      var d := db.discounts[code];
      if d.expiresAt.Some? && d.expiresAt.value < db.now then e == CodeExpired
      else if d.minOrderAmount.Some? && subtotal.amount < d.minOrderAmount.value then e == BelowMinimum
      else if d.maxUses.Some? && d.usedCount >= d.maxUses.value then e == if consume then DiscountConflict else UsageLimitReached
      else e == OrderFailure(MoneyFailure(if d.value >= 0.0 then UnsafeAmount else if d.kind.FIXED? then NegativeAmount else InvalidFactor))
  }

  lemma RefusedCodesAreTold(db: Db, subtotal: Dong, code: Option<Code>, enabled: bool, consume: bool)
    requires Price(db, subtotal, code, enabled, consume).Failure?
    ensures code.Some? && code.value != "" && enabled
    ensures Objects(db, subtotal, code.value, consume, Price(db, subtotal, code, enabled, consume).error)
  {
    if code.value in db.discounts { DiscountIsValidExactly(db.discounts[code.value], subtotal); }
  }

  /** Every stored order balances to the last unit, starts pending, and has the total its client agreed to. */
  lemma StoredOrdersBalance(db: Db, r: Request)
    requires PlaceOrder(db, r).Success?
    ensures r.orderId in PlaceOrder(db, r).value.orders
    ensures var row := PlaceOrder(db, r).value.orders[r.orderId];
            && row.subtotal == Worth(row.items) == CartWorth(db.products, r.items)
            && row.total + row.pricing.discountAmount.amount == row.subtotal + row.pricing.tax.amount + row.pricing.shippingFee.amount
            && row.pricing.discountAmount.amount <= row.subtotal
            && row.subtotal <= MAX_SAFE_INTEGER && FairPrice(db.discounts, Value(row.subtotal, VND), r.code, r.discountsEnabled, row.pricing)
            && (r.expectedTotal.Some? ==> row.total == r.expectedTotal.value)
            && row.status == PENDING && row.version == 0 && row.orderNumber == r.orderNumber && OnePerProduct(row.items)
            && (forall item :: item in row.items ==>
                  && item.productId in db.products
                  && item.productName == db.products[item.productId].name && item.unitPrice == db.products[item.productId].price)
            && |PlaceOrder(db, r).value.outbox| > 0
            && PlaceOrder(db, r).value.outbox[|PlaceOrder(db, r).value.outbox| - 1]
               == OrderRecorded(r.orderId, OrderPlaced(row.subtotal, row.pricing.tax.amount, row.pricing.shippingFee.amount, row.total, row.items), Some(0))
  {
    var reserved, d, _ := PlaceStages(db, r);
    ReserveIsExact(db, r.items);
    MergedWorth(db.products, DRAFT, r.items);
    LinesAreInDong(db.products, d, DRAFT, r.items);
    SubtotalIsWorth(d.items);
    PricesAreRight(reserved, Subtotal(d.items).value, r.code, r.discountsEnabled, true);
    TotalsBalance(d);
    FinishedOrder(db, r);
  }

  lemma LinesAreInDong(products: map<ProductId, ProductRow>, end: OrderData, d: OrderData, items: seq<CartItem>)
    requires AddLines(products, d, items).Success? && CurrentPrices(products, d)
    requires end.items == AddLines(products, d, items).value.items
    ensures AllVnd(end.items) && (OnePerProduct(d.items) ==> OnePerProduct(end.items))
    decreases |items|
  {
    MergedWorth(products, d, items);
    if items != [] {
      var p := products[items[0].productId];
      if OnePerProduct(d.items) { AddItemKeepsOnePerProduct(d, items[0].productId, p.name, items[0].quantity, p.price); }
      LineKeepsPrices(products, d, items[0]);
      LinesAreInDong(products, end, AddLine(products, d, items[0]).value, items[1..]);
    }
  }

  lemma LineKeepsPrices(products: map<ProductId, ProductRow>, d: OrderData, item: CartItem)
    requires CurrentPrices(products, d) && AddLine(products, d, item).Success?
    ensures CurrentPrices(products, AddLine(products, d, item).value)
  {
  }

  lemma FinishedOrder(db: Db, r: Request)
    requires ReserveStock(db, r.items).Success? && BuildOrder(db.products, ReserveStock(db, r.items).value, r).Success?
    ensures var d := BuildOrder(db.products, ReserveStock(db, r.items).value, r).value.0;
            && d.status == PENDING && Total(d).Success?
            && (r.expectedTotal.Some? ==> Total(d).value.amount == r.expectedTotal.value)
  {
    var d := AddLines(db.products, DRAFT, r.items).value;
    DraftStaysOpen(db.products, DRAFT, r.items);
    FinishKeepsTheTotal(d, ReserveStock(db, r.items).value, r);
  }

  lemma FinishKeepsTheTotal(d: OrderData, db: Db, r: Request)
    requires Finish(d, db, r).Success?
    ensures var placed := Finish(d, db, r).value.0;
            && placed.status == d.status == PENDING && Total(placed).Success?
            && (r.expectedTotal.Some? ==> Total(placed).value.amount == r.expectedTotal.value)
  {
    var placed := Finish(d, db, r).value.0;
    var priced := placed.(placed := false);
    assert Total(placed) == Total(priced);
  }

  // ---------- when a quote and a checkout succeed ----------

  /** Every line is available, and the cart is worth a safe amount. */
  predicate Quotable(products: map<ProductId, ProductRow>, items: seq<CartItem>) {
    && (forall k :: 0 <= k < |items| ==> Available(products, items[k]) && items[k].quantity >= 0)
    && CartWorth(products, items) <= MAX_SAFE_INTEGER
  }

  lemma {:induction false} QuoteSumSucceedsExactly(products: map<ProductId, ProductRow>, items: seq<CartItem>)
    ensures QuoteSum(products, items).Success? <==> Quotable(products, items)
    decreases |items|
  {
    if items != [] {
      var n := |items| - 1;
      var front, last := items[..n], items[n];
      QuoteSumSucceedsExactly(products, front);
      assert forall k :: 0 <= k < n ==> items[k] == front[k];
      if Available(products, last) && last.quantity >= 0 {
        var price := products[last.productId].price;
        MultiplyExact(price, last.quantity);
        LineWorth(price.amount, last.quantity);
        if QuoteSum(products, front).Success? {
          QuoteSumIsWorth(products, front);
          if Multiply(price, last.quantity as real).Success? {
            AddSubtractExact(QuoteSum(products, front).value, Multiply(price, last.quantity as real).value);
          }
        }
        if Quotable(products, items) { WorthNonnegative(products, front); }
      } else if Available(products, last) {
        NegativeLineFails(products, QuoteSum(products, front), last);
      }
    }
  }

  lemma LineWorth(price: nat, quantity: nat)
    ensures price * quantity >= 0
  {
  }

  lemma NegativeLineFails(products: map<ProductId, ProductRow>, sum: Result<Money, CheckoutError>, item: CartItem)
    requires item.quantity < 0
    ensures QuoteLine(products, sum, item).Failure?
  {
  }

  lemma {:induction false} WorthNonnegative(products: map<ProductId, ProductRow>, items: seq<CartItem>)
    requires forall k :: 0 <= k < |items| ==> Available(products, items[k]) && items[k].quantity >= 0
    ensures CartWorth(products, items) >= 0
  {
    if items != [] {
      var n := |items| - 1;
      WorthNonnegative(products, items[..n]);
      LineWorth(products[items[n].productId].price.amount, items[n].quantity);
    }
  }

  /**
   A quote is given exactly for a cart with lines that are all available and worth a safe amount,
   without a code or with a usable one, and with a gross amount in the safe range.
   */
  lemma QuoteSucceedsExactly(products: map<ProductId, ProductRow>, db: Db, items: seq<CartItem>, code: Option<Code>, enabled: bool)
    ensures Quote(products, db, items, code, enabled).Success? <==>
              && items != [] && Quotable(products, items) && CartWorth(products, items) >= 0
              && var subtotal := Value(CartWorth(products, items), VND);
                 && (code.Some? && code.value != "" && enabled ==> Usable(db, subtotal, code.value))
                 && var p := Price(db, subtotal, code, enabled, false);
                    p.Success? && subtotal.amount + p.value.0.tax.amount + p.value.0.shippingFee.amount <= MAX_SAFE_INTEGER
  {
    QuoteSumSucceedsExactly(products, items);
    if items != [] && QuoteSum(products, items).Success? {
      QuoteSumIsWorth(products, items);
      var subtotal := Value(CartWorth(products, items), VND);
      PriceSucceedsExactly(db, subtotal, code, enabled, false);
      if Price(db, subtotal, code, enabled, false).Success? {
        PayableExactly(db, subtotal, code, enabled);
      }
    }
  }

  lemma PayableExactly(db: Db, subtotal: Dong, code: Option<Code>, enabled: bool)
    requires Price(db, subtotal, code, enabled, false).Success?
    ensures var p := Price(db, subtotal, code, enabled, false).value.0;
            Payable(subtotal, p).Success? <==> subtotal.amount + p.tax.amount + p.shippingFee.amount <= MAX_SAFE_INTEGER
  {
    var p := Price(db, subtotal, code, enabled, false).value.0;
    PricesAreRight(db, subtotal, code, enabled, false);
    AddSubtractExact(subtotal, p.tax);
    if Add(subtotal, p.tax).Success? {
      var taxed := Add(subtotal, p.tax).value;
      AddSubtractExact(taxed, p.shippingFee);
      if Add(taxed, p.shippingFee).Success? { AddSubtractExact(Add(taxed, p.shippingFee).value, p.discountAmount); }
    }
  }

  /** A committed order would have been quoted, with its amounts. */
  lemma PlacedWasQuotable(db: Db, r: Request)
    requires PlaceOrder(db, r).Success?
    ensures Quote(db.products, db, r.items, r.code, r.discountsEnabled).Success?
    ensures r.expectedTotal.Some? ==> r.expectedTotal.value == Quote(db.products, db, r.items, r.code, r.discountsEnabled).value.total.amount
  {
    var reserved, _, _ := PlaceStages(db, r);
    ReserveIsExact(db, r.items);
    StoredOrdersBalance(db, r);
    var row := PlaceOrder(db, r).value.orders[r.orderId];
    var subtotal := Value(row.subtotal, VND);
    forall k | 0 <= k < |r.items| ensures Available(db.products, r.items[k]) { assert Reservable(db.products, r.items[k]); }
    QuoteSumSucceedsExactly(db.products, r.items);
    QuoteSumIsWorth(db.products, r.items);
    SubtotalOfPlaced(db, r);
    PriceIgnoresStock(db, reserved, subtotal, r.code, r.discountsEnabled);
    PreviewAgrees(db, subtotal, r.code, r.discountsEnabled);
    PayableExactly(db, subtotal, r.code, r.discountsEnabled);
    QuoteBalances(db.products, db, r.items, r.code, r.discountsEnabled);
  }

  lemma SubtotalOfPlaced(db: Db, r: Request)
    requires PlaceOrder(db, r).Success?
    ensures r.orderId in PlaceOrder(db, r).value.orders
    ensures var row := PlaceOrder(db, r).value.orders[r.orderId];
            row.subtotal <= MAX_SAFE_INTEGER && ReserveStock(db, r.items).Success?
            && Price(ReserveStock(db, r.items).value, Value(row.subtotal, VND), r.code, r.discountsEnabled, true).Success?
            && Price(ReserveStock(db, r.items).value, Value(row.subtotal, VND), r.code, r.discountsEnabled, true).value.0 == row.pricing
            && row.subtotal + row.pricing.tax.amount + row.pricing.shippingFee.amount <= MAX_SAFE_INTEGER
  {
    var reserved, d, _ := PlaceStages(db, r);
    MergedWorth(db.products, DRAFT, r.items);
    LinesAreInDong(db.products, d, DRAFT, r.items);
    SubtotalIsWorth(d.items);
    PricesAreRight(reserved, Subtotal(d.items).value, r.code, r.discountsEnabled, true);
    TotalSucceedsExactly(d);
  }

  /**
   A checkout succeeds exactly when the same cart would be quoted now, the client expects that total
   or none, every line is listed once with a positive safe quantity, and the details, ids and key are free.
   */
  lemma CheckoutSucceedsExactly(db: Db, r: Request)
    ensures PlaceOrder(db, r).Success? <==>
              && Placeable(db, r) && Quote(db.products, db, r.items, r.code, r.discountsEnabled).Success?
              && (r.expectedTotal.Some? ==> r.expectedTotal.value == Quote(db.products, db, r.items, r.code, r.discountsEnabled).value.total.amount)
  {
    if PlaceOrder(db, r).Success? { PlacedWasQuotable(db, r); }
    var quote := Quote(db.products, db, r.items, r.code, r.discountsEnabled);
    if quote.Success? && (r.expectedTotal.Some? ==> r.expectedTotal.value == quote.value.total.amount) {
      QuotedTotalIsAccepted(db, r);
    }
  }
}
