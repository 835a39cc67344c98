/** The cart's quantities, the events its mutators raise, and their replay. */
module CartReplay {
  import opened Wrappers
  import opened Numbers

  type ProductId = nat

  /** A JavaScript number: an integer, or a fraction, an infinity or NaN. */
  datatype JsNumber = Integer(value: int) | Other

  predicate IsSafeInteger(n: JsNumber) { n.Integer? && -MAX_SAFE_INTEGER <= n.value <= MAX_SAFE_INTEGER }

  datatype CartError = InvalidQuantity | ItemNotFound(productId: ProductId)

  datatype CartEvent =
    | ItemAdded(productId: ProductId, quantity: int)
    | ItemRemoved(productId: ProductId)
    | Cleared

  type Quantities = map<ProductId, int>

  datatype Operation =
    | AddItem(productId: ProductId, quantity: JsNumber)
    | UpdateItemQuantity(productId: ProductId, quantity: JsNumber)
    | RemoveItem(productId: ProductId)
    | Clear

  datatype Effect = Effect(after: Quantities, raised: seq<CartEvent>)

  function Removal(q: Quantities, p: ProductId): Effect {
    if p in q then Effect(q - {p}, [ItemRemoved(p)]) else Effect(q, [])
  }

  function Addition(q: Quantities, p: ProductId, n: JsNumber): Result<Effect, CartError> {
    if !IsSafeInteger(n) || n.value <= 0 then Failure(InvalidQuantity)
    else if p in q && q[p] + n.value > MAX_SAFE_INTEGER then Failure(InvalidQuantity)
    else Success(Effect(q[p := (if p in q then q[p] else 0) + n.value], [ItemAdded(p, n.value)]))
  }

  function Replacement(q: Quantities, p: ProductId, n: JsNumber): Result<Effect, CartError> {
    if !IsSafeInteger(n) || n.value < 0 then Failure(InvalidQuantity)
    else if p !in q then Failure(ItemNotFound(p))
    else if n.value == 0 then Success(Removal(q, p))
    else Success(Effect(q[p := n.value], [ItemAdded(p, n.value - q[p])]))
  }

  function Emptying(q: Quantities): Effect { if q == map[] then Effect(q, []) else Effect(map[], [Cleared]) }

  function Perform(q: Quantities, op: Operation): Result<Effect, CartError> {
    match op
    case AddItem(p, n) => Addition(q, p, n)
    case UpdateItemQuantity(p, n) => Replacement(q, p, n)
    case RemoveItem(p) => Success(Removal(q, p))
    case Clear => Success(Emptying(q))
  }

  /** A rejected call changes nothing and raises nothing. */
  function PerformAll(q: Quantities, ops: seq<Operation>): Effect
    decreases |ops|
  {
    if ops == [] then Effect(q, [])
    else
      var first := Perform(q, ops[0]);
      if first.Failure? then PerformAll(q, ops[1..])
      else
        var rest := PerformAll(first.value.after, ops[1..]);
        Effect(rest.after, first.value.raised + rest.raised)
  }

  /** What a reader of the events alone makes of them: an addition is a delta. */
  function Fold(q: Quantities, e: CartEvent): Quantities {
    match e
    case ItemAdded(p, delta) => q[p := (if p in q then q[p] else 0) + delta]
    case ItemRemoved(p) => q - {p}
    case Cleared => map[]
  }

  function Replay(q: Quantities, events: seq<CartEvent>): Quantities
    decreases |events|
  {
    if events == [] then q else Replay(Fold(q, events[0]), events[1..])
  }

  predicate Positive(q: Quantities) { forall p :: p in q ==> 0 < q[p] <= MAX_SAFE_INTEGER }

  lemma {:induction false} ReplayAppend(q: Quantities, a: seq<CartEvent>, b: seq<CartEvent>)
    ensures Replay(q, a + b) == Replay(Replay(q, a), b)
    decreases |a|
  {
    if a == [] {
      assert a + b == b;
    } else {
      assert (a + b)[0] == a[0] && (a + b)[1..] == a[1..] + b;
      ReplayAppend(Fold(q, a[0]), a[1..], b);
    }
  }

  lemma ReplayOne(q: Quantities, op: Operation)
    requires Positive(q) && Perform(q, op).Success?
    ensures Replay(q, Perform(q, op).value.raised) == Perform(q, op).value.after && Positive(Perform(q, op).value.after)
  {
    var raised := Perform(q, op).value.raised;
    if raised != [] { assert Replay(q, raised) == Replay(Fold(q, raised[0]), []); }
  }

  /** Replaying the raised events over the starting quantities rebuilds the cart, whatever was called. */
  lemma {:induction false} ReplayRebuildsTheCart(q: Quantities, ops: seq<Operation>)
    requires Positive(q)
    ensures var e := PerformAll(q, ops); Replay(q, e.raised) == e.after && Positive(e.after)
    decreases |ops|
  {
    if ops != [] {
      var first := Perform(q, ops[0]);
      if first.Failure? {
        ReplayRebuildsTheCart(q, ops[1..]);
      } else {
        ReplayOne(q, ops[0]);
        ReplayRebuildsTheCart(first.value.after, ops[1..]);
        ReplayAppend(q, first.value.raised, PerformAll(first.value.after, ops[1..]).raised);
      }
    }
  }

  /** Events speak of a reader who already saw the cart: intermediate quantities stay positive too. */
  lemma {:induction false} EveryPrefixIsACart(q: Quantities, ops: seq<Operation>, k: nat)
    requires Positive(q) && k <= |PerformAll(q, ops).raised|
    ensures Positive(Replay(q, PerformAll(q, ops).raised[..k]))
    decreases |ops|
  {
    if ops != [] {
      var first := Perform(q, ops[0]);
      if first.Failure? {
        EveryPrefixIsACart(q, ops[1..], k);
      } else {
        var raised, rest := first.value.raised, PerformAll(first.value.after, ops[1..]).raised;
        ReplayOne(q, ops[0]);
        if k > |raised| || raised == [] {
          EveryPrefixIsACart(first.value.after, ops[1..], k - |raised|);
          assert (raised + rest)[..k] == raised + rest[..k - |raised|];
          ReplayAppend(q, raised, rest[..k - |raised|]);
        } else if k == |raised| {
          assert (raised + rest)[..k] == raised;
        }
      }
    }
  }

  // ---------- what was asked for ----------

  /** How much of a product is in the cart. */
  function Held(q: Quantities, p: ProductId): int { if p in q then q[p] else 0 }

  predicate Acceptable(q: Quantities, op: Operation) {
    match op
    case AddItem(p, n) => IsSafeInteger(n) && n.value > 0 && Held(q, p) + n.value <= MAX_SAFE_INTEGER
    case UpdateItemQuantity(p, n) => IsSafeInteger(n) && n.value >= 0 && p in q
    case RemoveItem(_) => true
    case Clear => true
  }

  /** The operation sets the product's quantity, whatever it was. */
  predicate Sets(op: Operation, p: ProductId, quantity: int) {
    || op == UpdateItemQuantity(p, Integer(quantity))
    || (quantity == 0 && (op == RemoveItem(p) || op == Clear))
  }

  predicate Adds(op: Operation, p: ProductId) { op.AddItem? && op.productId == p }

  /** Each call is accepted exactly when it can be, does to its product what it says, and leaves the others alone. */
  lemma OperationsDoWhatTheySay(q: Quantities, op: Operation, p: ProductId)
    requires Positive(q)
    ensures Perform(q, op).Success? <==> Acceptable(q, op)
    ensures Perform(q, op).Failure? ==> Perform(q, op).error == if IsSafeInteger(op.quantity) && op.UpdateItemQuantity? && op.quantity.value >= 0
                                                                then ItemNotFound(op.productId) else InvalidQuantity
    ensures Acceptable(q, op) ==>
              var after := Perform(q, op).value.after;
              && Positive(after) && (p in after <==> Held(after, p) > 0)
              && (Adds(op, p) ==> Held(after, p) == Held(q, p) + op.quantity.value)
              && (forall n :: Sets(op, p, n) ==> Held(after, p) == n)
              && (!Adds(op, p) && (forall n :: !Sets(op, p, n)) ==> Held(after, p) == Held(q, p))
  {
    if Acceptable(q, op) {
      ReplayOne(q, op);
      if op.UpdateItemQuantity? && op.productId == p { assert Sets(op, p, op.quantity.value); }
      if op == RemoveItem(p) || op == Clear { assert Sets(op, p, 0); }
    }
  }

  /** The cart after the first `k` calls. */
  function At(q: Quantities, ops: seq<Operation>, k: nat): Quantities
    requires k <= |ops|
  {
    PerformAll(q, ops[..k]).after
  }

  lemma {:induction false} OneMoreCall(q: Quantities, ops: seq<Operation>, op: Operation)
    ensures var q' := PerformAll(q, ops).after;
            PerformAll(q, ops + [op]).after == if Perform(q', op).Success? then Perform(q', op).value.after else q'
    decreases |ops|
  {
    if ops == [] {
      assert (ops + [op])[1..] == [];
    } else {
      assert (ops + [op])[1..] == ops[1..] + [op];
      var first := Perform(q, ops[0]);
      OneMoreCall(if first.Success? then first.value.after else q, ops[1..], op);
    }
  }

  /** The units that accepted additions brought from call `k` on. */
  function AddedSince(q: Quantities, ops: seq<Operation>, k: nat, p: ProductId): int
    requires k <= |ops|
    decreases |ops| - k
  {
    if k == |ops| then 0
    else (if Adds(ops[k], p) && Acceptable(At(q, ops, k), ops[k]) then ops[k].quantity.value else 0) + AddedSince(q, ops, k + 1, p)
  }

  /** From call `k` on, no accepted call sets the product's quantity. */
  ghost predicate NotSetSince(q: Quantities, ops: seq<Operation>, k: nat, p: ProductId) {
    forall i, n :: k <= i < |ops| && Sets(ops[i], p, n) ==> !Acceptable(At(q, ops, i), ops[i])
  }

  lemma {:induction false} OnlyAdditionsSince(q: Quantities, ops: seq<Operation>, k: nat, p: ProductId)
    requires Positive(q) && k <= |ops| && NotSetSince(q, ops, k, p)
    ensures Held(PerformAll(q, ops).after, p) == Held(At(q, ops, k), p) + AddedSince(q, ops, k, p)
    decreases |ops| - k
  {
    if k == |ops| {
      assert ops[..k] == ops;
    } else {
      ReplayRebuildsTheCart(q, ops[..k]);
      assert ops[..k + 1] == ops[..k] + [ops[k]];
      OneMoreCall(q, ops[..k], ops[k]);
      OperationsDoWhatTheySay(At(q, ops, k), ops[k], p);
      OnlyAdditionsSince(q, ops, k + 1, p);
    }
  }

  lemma SetAndAddedSince(q: Quantities, ops: seq<Operation>, k: nat, p: ProductId, quantity: int)
    requires Positive(q) && k < |ops| && Sets(ops[k], p, quantity) && Acceptable(At(q, ops, k), ops[k]) && NotSetSince(q, ops, k + 1, p)
    ensures Held(PerformAll(q, ops).after, p) == quantity + AddedSince(q, ops, k + 1, p)
  {
    ReplayRebuildsTheCart(q, ops[..k]);
    OperationsDoWhatTheySay(At(q, ops, k), ops[k], p);
    assert ops[..k + 1] == ops[..k] + [ops[k]];
    OneMoreCall(q, ops[..k], ops[k]);
    OnlyAdditionsSince(q, ops, k + 1, p);
  }

  /**
   Whatever is called: a product's quantity is the one that was last set (zero by a removal or an
   emptying) and the accepted additions since; never set, it is the starting quantity and all accepted
   additions.  The product is listed exactly when that is positive.
   */
  lemma QuantityIsWhatWasAskedFor(q: Quantities, ops: seq<Operation>, k: nat, p: ProductId, quantity: int)
    requires Positive(q)
    ensures NotSetSince(q, ops, 0, p) ==> Held(PerformAll(q, ops).after, p) == Held(q, p) + AddedSince(q, ops, 0, p)
    ensures k < |ops| && Sets(ops[k], p, quantity) && Acceptable(At(q, ops, k), ops[k]) && NotSetSince(q, ops, k + 1, p) ==>
              Held(PerformAll(q, ops).after, p) == quantity + AddedSince(q, ops, k + 1, p)
    ensures p in PerformAll(q, ops).after <==> Held(PerformAll(q, ops).after, p) > 0
  {
    ReplayRebuildsTheCart(q, ops);
    assert ops[..0] == [];
    if NotSetSince(q, ops, 0, p) { OnlyAdditionsSince(q, ops, 0, p); }
    if k < |ops| && Sets(ops[k], p, quantity) && Acceptable(At(q, ops, k), ops[k]) && NotSetSince(q, ops, k + 1, p) {
      SetAndAddedSince(q, ops, k, p, quantity);
    }
  }
}
