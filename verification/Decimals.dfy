/** Results of fallible operations. */
module Outcomes {
  datatype Option<+T> = None | Some(value: T)

  datatype Error =
    | Overflow               // a calculated value does not fit DECIMAL(28,8)
    | InvalidInput           // amount or price is not a positive stored decimal
    | ZeroCost               // the order is worth less than one USD unit
    | NegativeDelta          // a balance change below zero
    | BalanceBounds          // a guarded wallet update matched no row
    | InsufficientFunds
    | WalletNotFound
    | OrderNotFound
    | NotCancellable
    | SequenceTaken          // an order row violates the unique index on `sequence`

  datatype Result<+T> = Ok(value: T) | Err(error: Error) {
    predicate IsFailure() {
      Err?
    }

    function PropagateFailure<U>(): (r: Result<U>)
      requires Err?
    {
      Err(error)
    }

    function Extract(): T
      requires Ok?
    {
      value
    }
  }
}

/**
 Fixed-point arithmetic of decimal.utils. A stored DECIMAL(28,8) value is an
 integer number of units of 10^-8. `Dec` is the arbitrary-precision decimal the
 code computes with: every operation rounds its exact result towards zero to 56
 significant digits, and the result is then rounded towards zero to eight places.
 */
module Decimals {
  import opened Outcomes

  const SCALE: nat := 100_000_000
  const DECIMAL_SCALE: nat := 8
  const DECIMAL_PRECISION: nat := 28
  // 99999999999999999999.99999999 in units.
  const DECIMAL_MAX: nat := 9_999_999_999_999_999_999_999_999_999

  function Abs(x: int): nat {
    if x < 0 then -x else x
  }

  /** Division rounding towards zero (ROUND_DOWN). */
  function TruncDiv(x: int, d: nat): int
    requires 0 < d
  {
    if x < 0 then -(-x / d) else x / d
  }

  /** Exact ⌊a·p⌋ in units, the rounded worth of `a` units of BTC at price `p`. */
  function Cost(a: nat, p: nat): nat {
    a * p / SCALE
  }

  function ToSchema(units: int): (r: Result<int>)
    ensures r == if Abs(units) <= DECIMAL_MAX then Ok(units) else Err(Overflow)
  {
    if Abs(units) > DECIMAL_MAX then Err(Overflow) else Ok(units)
  }

  function MultiplyScaled(left: int, right: int): (r: Result<int>)
    ensures 0 <= left && 0 <= right && r.Ok? ==> 0 <= r.value
  {
    assert 0 <= left && 0 <= right ==> 0 <= left * right;
    ToSchema(TruncDiv(left * right, SCALE))
  }

  function SubtractScaled(left: int, right: int): Result<int> {
    ToSchema(left - right)
  }

  function AddScaled(left: int, right: int): Result<int> {
    ToSchema(left + right)
  }

  // ----- the decimal type underneath -----

  function Pow10(n: nat): (r: nat)
    ensures 0 < r
  {
    if n == 0 then 1 else 10 * Pow10(n - 1)
  }

  /** The value coefficient · 10^-places. */
  datatype Dec = Dec(coefficient: int, places: int)

  /** Drops low digits, rounding towards zero, until at most `precision` remain. */
  function RoundSignificant(d: Dec, precision: nat): Dec
    decreases Abs(d.coefficient)
  {
    if Abs(d.coefficient) < Pow10(precision) then d
    else RoundSignificant(Dec(TruncDiv(d.coefficient, 10), d.places - 1), precision)
  }

  /** toDecimalPlaces(8, ROUND_DOWN), read off in units. */
  function QuantizedUnits(d: Dec): int {
    if d.places <= DECIMAL_SCALE
    then d.coefficient * Pow10(DECIMAL_SCALE - d.places)
    else TruncDiv(d.coefficient, Pow10(d.places - DECIMAL_SCALE))
  }

  function ToScaledDecimal(d: Dec): Result<int> {
    ToSchema(QuantizedUnits(d))
  }

  /** A decimal with at most eight places and within the storage range. */
  ghost predicate Stored(d: Dec) {
    && 0 <= d.places <= DECIMAL_SCALE
    && Abs(QuantizedUnits(d)) <= DECIMAL_MAX
  }

  function DecMultiply(left: Dec, right: Dec): Dec {
    RoundSignificant(Dec(left.coefficient * right.coefficient, left.places + right.places), 2 * DECIMAL_PRECISION)
  }

  /** Both operands written with `places` decimal places. */
  function Aligned(d: Dec, places: int): int
    requires d.places <= places
  {
    d.coefficient * Pow10(places - d.places)
  }

  function DecAdd(left: Dec, right: Dec): Dec {
    var places := if left.places < right.places then right.places else left.places;
    RoundSignificant(Dec(Aligned(left, places) + Aligned(right, places), places), 2 * DECIMAL_PRECISION)
  }

  function Negated(d: Dec): Dec {
    Dec(-d.coefficient, d.places)
  }

  function DecSubtract(left: Dec, right: Dec): Dec {
    DecAdd(left, Negated(right))
  }

  lemma {:induction false} Pow10Split(m: nat, n: nat)
    ensures Pow10(m + n) == Pow10(m) * Pow10(n)
  {
    if m == 0 {
    } else {
      Pow10Split(m - 1, n);
    }
  }

  lemma {:induction false} Pow10Monotone(m: nat, n: nat)
    requires m <= n
    ensures Pow10(m) <= Pow10(n)
  {
    Pow10Split(m, n - m);
    MulAtLeast(Pow10(m), Pow10(n - m));
  }

  lemma MulAtLeast(a: nat, k: nat)
    requires 1 <= k
    ensures a <= a * k
  {
  }

  lemma AbsMultiply(a: int, b: int)
    ensures Abs(a * b) == Abs(a) * Abs(b)
  {
  }

  lemma MulLess(a: nat, b: nat, c: nat, d: nat)
    requires a < c && b < d
    ensures a * b < c * d
  {
  }

  /** A common factor cancels from a truncating division. */
  lemma TruncCancel(x: int, d: nat, k: nat)
    requires 0 < d && 0 < k
    ensures 0 < d * k
    ensures TruncDiv(x * k, d * k) == TruncDiv(x, d)
  {
    assert 0 < d * k;
    if x < 0 {
      FloorCancel(-x, d, k);
      assert -(x * k) == (-x) * k;
      assert x * k < 0;
    } else {
      FloorCancel(x, d, k);
      assert 0 <= x * k;
    }
  }

  lemma FloorCancel(x: nat, d: nat, k: nat)
    requires 0 < d && 0 < k
    ensures 0 < d * k && x * k / (d * k) == x / d
  {
    var q, r := x / d, x % d;
    Expand(q, d, r, k);
    MulOrder(r + 1, d, k);
    MulAtLeast(d, k);
    assert (r + 1) * k == r * k + k;
    QuotientIs(x * k, d * k, q, r * k);
  }

  lemma Expand(q: nat, d: nat, r: nat, k: nat)
    ensures (q * d + r) * k == q * (d * k) + r * k
  {
  }

  lemma MulOrder(a: nat, b: nat, k: nat)
    requires a <= b
    ensures a * k <= b * k
  {
  }

  lemma SameQuotient(d: nat, q: nat, r: nat, q': nat, r': nat)
    requires r < d && r' < d && q * d + r == q' * d + r'
    ensures q == q'
  {
    if q < q' {
      MulOrder(q + 1, q', d);
    } else if q' < q {
      MulOrder(q' + 1, q, d);
    }
  }

  lemma QuotientIs(x: nat, d: nat, q: nat, r: nat)
    requires 0 < d && r < d && x == q * d + r
    ensures x / d == q
  {
    var q', r' := x / d, x % d;
    SameQuotient(d, q, r, q', r');
  }

  /** A stored operand has at most 28 significant digits, and so do its units. */
  lemma StoredUnits(d: Dec)
    requires Stored(d)
    ensures Abs(d.coefficient) <= Abs(QuantizedUnits(d)) < Pow10(DECIMAL_PRECISION)
  {
    var k := Pow10(DECIMAL_SCALE - d.places);
    AbsMultiply(d.coefficient, k);
    MulAtLeast(Abs(d.coefficient), k);
    assert Pow10(DECIMAL_PRECISION) == DECIMAL_MAX + 1 by { Pow10OfPrecision(); }
  }

  lemma Pow10OfPrecision()
    ensures Pow10(DECIMAL_PRECISION) == DECIMAL_MAX + 1
    ensures Pow10(DECIMAL_SCALE) == SCALE
  {
    assert Pow10(4) == 10_000;
    Pow10Split(4, 4);
    Pow10Split(8, 4);
    Pow10Split(12, 4);
    Pow10Split(16, 8);
    Pow10Split(24, 4);
  }

  /**
   Rounding the product of two stored decimals to 56 significant digits and then
   to eight places loses nothing against the exact product in units: the guarded
   `MultiplyScaled` on units is what the two-stage decimal computation returns.
   */
  lemma MultiplyIsExact(left: Dec, right: Dec)
    requires Stored(left) && Stored(right)
    ensures ToScaledDecimal(DecMultiply(left, right)) == MultiplyScaled(QuantizedUnits(left), QuantizedUnits(right))
  {
    var c := left.coefficient * right.coefficient;
    StoredUnits(left);
    StoredUnits(right);
    AbsMultiply(left.coefficient, right.coefficient);
    MulLess(Abs(left.coefficient), Abs(right.coefficient), Pow10(DECIMAL_PRECISION), Pow10(DECIMAL_PRECISION));
    Pow10Split(DECIMAL_PRECISION, DECIMAL_PRECISION);
    assert DecMultiply(left, right) == Dec(c, left.places + right.places);
    Pow10OfPrecision();
    ProductUnits(left, right);
  }

  lemma ProductUnits(left: Dec, right: Dec)
    requires Stored(left) && Stored(right)
    ensures QuantizedUnits(Dec(left.coefficient * right.coefficient, left.places + right.places))
         == TruncDiv(QuantizedUnits(left) * QuantizedUnits(right), SCALE)
  {
    var c, places := left.coefficient * right.coefficient, left.places + right.places;
    var kl, kr := Pow10(DECIMAL_SCALE - left.places), Pow10(DECIMAL_SCALE - right.places);
    Pow10OfPrecision();
    Pow10Split(DECIMAL_SCALE - left.places, DECIMAL_SCALE - right.places);
    assert QuantizedUnits(left) * QuantizedUnits(right) == c * (kl * kr) by {
      ProductOfProducts(left.coefficient, kl, right.coefficient, kr);
    }
    if places <= DECIMAL_SCALE {
      var k := Pow10(DECIMAL_SCALE - places);
      Pow10Split(DECIMAL_SCALE - places, DECIMAL_SCALE);
      assert c * (kl * kr) == (c * k) * SCALE by { Associate(c, k, SCALE); }
      TruncCancel(c * k, 1, SCALE);
    } else {
      var k := Pow10(2 * DECIMAL_SCALE - places);
      Pow10Split(places - DECIMAL_SCALE, 2 * DECIMAL_SCALE - places);
      assert kl * kr == k;
      TruncCancel(c, Pow10(places - DECIMAL_SCALE), k);
    }
  }

  lemma ProductOfProducts(a: int, k: int, b: int, m: int)
    ensures (a * k) * (b * m) == (a * b) * (k * m)
  {
  }

  lemma Associate(a: int, b: int, c: int)
    ensures a * (b * c) == (a * b) * c
  {
  }

  /** Sums of stored decimals are exact before the range check. */
  lemma AddIsExact(left: Dec, right: Dec)
    requires Stored(left) && Stored(right)
    ensures ToScaledDecimal(DecAdd(left, right)) == AddScaled(QuantizedUnits(left), QuantizedUnits(right))
  {
    var places := if left.places < right.places then right.places else left.places;
    var a, b, k := Aligned(left, places), Aligned(right, places), Pow10(DECIMAL_SCALE - places);
    AlignedUnits(left, places);
    AlignedUnits(right, places);
    TwiceStoredFits();
    assert DecAdd(left, right) == Dec(a + b, places);
    Distribute(a, b, k);
  }

  lemma NegatedUnits(d: Dec)
    requires Stored(d)
    ensures Stored(Negated(d)) && QuantizedUnits(Negated(d)) == -QuantizedUnits(d)
  {
  }

  /** And so are their differences. */
  lemma SubtractIsExact(left: Dec, right: Dec)
    requires Stored(left) && Stored(right)
    ensures ToScaledDecimal(DecSubtract(left, right)) == SubtractScaled(QuantizedUnits(left), QuantizedUnits(right))
  {
    NegatedUnits(right);
    AddIsExact(left, Negated(right));
  }

  lemma TwiceStoredFits()
    ensures 2 * DECIMAL_MAX < Pow10(2 * DECIMAL_PRECISION)
  {
    Pow10OfPrecision();
    Pow10Monotone(DECIMAL_PRECISION + 1, 2 * DECIMAL_PRECISION);
    assert Pow10(DECIMAL_PRECISION + 1) == 10 * Pow10(DECIMAL_PRECISION);
  }

  lemma Distribute(a: int, b: int, k: int)
    ensures (a + b) * k == a * k + b * k
  {
  }

  lemma AlignedUnits(d: Dec, places: int)
    requires Stored(d) && d.places <= places <= DECIMAL_SCALE
    ensures Abs(Aligned(d, places)) <= DECIMAL_MAX
    ensures Aligned(d, places) * Pow10(DECIMAL_SCALE - places) == QuantizedUnits(d)
  {
    var a, k := Aligned(d, places), Pow10(DECIMAL_SCALE - places);
    Pow10Split(places - d.places, DECIMAL_SCALE - places);
    Associate(d.coefficient, Pow10(places - d.places), k);
    AbsMultiply(a, k);
    MulAtLeast(Abs(a), k);
  }

  // ----- laws of the rounded cost -----

  /** ⌊a·p⌋ + ⌊b·p⌋ never exceeds ⌊(a+b)·p⌋ and falls short of it by at most one unit. */
  lemma CostOfSum(a: nat, b: nat, p: nat)
    ensures Cost(a, p) + Cost(b, p) <= Cost(a + b, p) <= Cost(a, p) + Cost(b, p) + 1
  {
    assert (a + b) * p == a * p + b * p;
  }

  lemma CostMonotone(a: nat, b: nat, p: nat, q: nat)
    requires a <= b && p <= q
    ensures Cost(a, p) <= Cost(b, q)
  {
    assert a * p <= b * p by { MulOrder(a, b, p); }
    assert b * p <= b * q by { MulOrder(p, q, b); }
  }

  lemma CostOfZero(p: nat)
    ensures Cost(0, p) == 0
  {
  }

  lemma CostIsMultiply(a: nat, p: nat)
    ensures MultiplyScaled(a, p) == if Cost(a, p) <= DECIMAL_MAX then Ok(Cost(a, p)) else Err(Overflow)
  {
  }
}
