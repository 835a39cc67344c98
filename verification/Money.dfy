/** Non-negative whole amounts in a currency, with half-up rounding and safe-integer bounds. */
module Money {
  import opened Wrappers
  import opened Numbers

  const VND := "VND"

  datatype MoneyError = NegativeAmount | InvalidCurrency | UnsafeAmount | CurrencyMismatch | InvalidFactor

  datatype Value = Value(amount: nat, currency: string)

  predicate IsCurrency(c: string) {
    |c| == 3 && forall k | 0 <= k < 3 :: 'A' <= c[k] <= 'Z'
  }

  type Money = m: Value | m.amount <= MAX_SAFE_INTEGER && IsCurrency(m.currency) witness Value(0, VND)

  /** The default currency, in which products are priced. */
  type Dong = m: Money | m.currency == VND witness Value(0, VND)

  /** JavaScript's `Math.round`: the nearest integer, halves upwards. */
  function Round(x: real): int { (x + 0.5).Floor }

  function New(amount: real, currency: string): Result<Money, MoneyError> {
    if amount < 0.0 then Failure(NegativeAmount)
    else if !IsCurrency(currency) then Failure(InvalidCurrency)
    else if Round(amount) > MAX_SAFE_INTEGER then Failure(UnsafeAmount)
    else Success(Value(Round(amount), currency))
  }

  function Add(a: Money, b: Money): Result<Money, MoneyError> {
    if a.currency != b.currency then Failure(CurrencyMismatch)
    else New((a.amount + b.amount) as real, a.currency)
  }

  function Subtract(a: Money, b: Money): Result<Money, MoneyError> {
    if a.currency != b.currency then Failure(CurrencyMismatch)
    else New((a.amount - b.amount) as real, a.currency)
  }

  function Scaled(amount: real, factor: real): real { amount * factor }

  function Multiply(a: Money, factor: real): Result<Money, MoneyError> {
    if factor < 0.0 then Failure(InvalidFactor)
    else New(Scaled(a.amount as real, factor), a.currency)
  }

  /** The rounding policy: never more than half a unit away, and a half goes up. */
  lemma RoundIsHalfUp(x: real, n: int)
    ensures -0.5 < Round(x) as real - x <= 0.5
    ensures x == n as real + 0.5 ==> Round(x) == n + 1
  {
  }

  lemma RoundExact(n: int)
    ensures Round(n as real) == n
  {
  }

  /** Sums and differences of amounts are exact, and fail only at the bounds. */
  lemma AddSubtractExact(a: Money, b: Money)
    requires a.currency == b.currency
    ensures Add(a, b) == if a.amount + b.amount <= MAX_SAFE_INTEGER
                         then Success(Value(a.amount + b.amount, a.currency)) else Failure(UnsafeAmount)
    ensures Subtract(a, b) == if b.amount <= a.amount
                              then Success(Value(a.amount - b.amount, a.currency)) else Failure(NegativeAmount)
    ensures Add(a, b).Success? ==> Subtract(Add(a, b).value, b) == Success(a)
  {
    RoundExact(a.amount + b.amount);
    RoundExact(a.amount - b.amount);
    RoundExact(a.amount);
  }

  lemma {:induction false} ProductAsReal(a: nat, b: nat)
    ensures Scaled(a as real, b as real) == (a * b) as real
    decreases b
  {
    if b > 0 {
      var x, y := a as real, (b - 1) as real;
      ProductAsReal(a, b - 1);
      assert x * (y + 1.0) == x * y + x;
      assert a * b == a * (b - 1) + a;
    }
  }

  lemma NewExact(n: nat, currency: string)
    requires IsCurrency(currency)
    ensures New(n as real, currency) == if n <= MAX_SAFE_INTEGER then Success(Value(n, currency)) else Failure(UnsafeAmount)
  {
    RoundExact(n);
  }

  lemma MultiplyExact(a: Money, quantity: nat)
    ensures Multiply(a, quantity as real) == if a.amount * quantity <= MAX_SAFE_INTEGER
                                             then Success(Value(a.amount * quantity, a.currency)) else Failure(UnsafeAmount)
  {
    ProductAsReal(a.amount, quantity);
    NewExact(a.amount * quantity, a.currency);
  }

  /** Amounts of different currencies are never combined; a factor scales half up within the safe range, or is refused as negative. */
  lemma ScalingIsExact(a: Money, b: Money, factor: real)
    ensures a.currency != b.currency ==> Add(a, b) == Failure(CurrencyMismatch) && Subtract(a, b) == Failure(CurrencyMismatch)
    ensures factor < 0.0 ==> Multiply(a, factor) == Failure(InvalidFactor)
    ensures factor >= 0.0 ==>
              var exact := a.amount as real * factor;
              match Multiply(a, factor)
              case Success(m) => m.currency == a.currency && -0.5 < m.amount as real - exact <= 0.5
              case Failure(e) => e == UnsafeAmount && exact > MAX_SAFE_INTEGER as real
  {
    if factor >= 0.0 {
      ScaledIsNonnegative(a.amount as real, factor);
      RoundIsHalfUp(Scaled(a.amount as real, factor), 0);
    }
  }

  lemma ScaledIsNonnegative(amount: real, factor: real)
    requires amount >= 0.0 && factor >= 0.0
    ensures Scaled(amount, factor) >= 0.0 && Scaled(amount, factor) == amount * factor
  {
  }

  /** An amount is accepted exactly when it is not negative, rounds to a safe one, and its currency has three capitals. */
  lemma AmountsAreChecked(amount: real, currency: string)
    ensures New(amount, currency).Success? <==>
              && amount >= 0.0 && (amount + 0.5).Floor <= 9_007_199_254_740_991
              && |currency| == 3 && forall ch :: ch in currency ==> 'A' <= ch <= 'Z'
    ensures New(amount, currency).Success? ==> New(amount, currency).value.currency == currency
  {
    if |currency| == 3 {
      assert forall k :: 0 <= k < 3 ==> currency[k] in currency;
    }
  }
}
