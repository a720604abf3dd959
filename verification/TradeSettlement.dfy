/** The settlement service: the balance updates and fees of one fill, as the code performs them. */
module TradeSettlement {
  import opened Outcomes
  import opened Decimals
  import opened Model
  import opened Engine
  import opened Fills
  import opened Wallets

  /** floor(a·p) − floor((a−q)·p), each step range-checked. */
  function BuyReservationDebit(o: Order, q: nat): Result<int> {
    var remaining :- SubtractScaled(o.remaining, q);
    var full :- MultiplyScaled(o.remaining, o.price);
    var left :- MultiplyScaled(remaining, o.price);
    SubtractScaled(full, left)
  }

  function BuildFeeDetails(takerSide: Side, q: nat, price: nat): Result<FeeDetails> {
    var cost :- MultiplyScaled(q, price);
    if takerSide.Buy? then
      var makerFee :- MultiplyScaled(cost, MAKER_FEE_RATE);
      var takerFee :- MultiplyScaled(q, TAKER_FEE_RATE);
      Ok(FeeDetails(MAKER_FEE_RATE, makerFee, Usd, TAKER_FEE_RATE, takerFee, Btc))
    else
      var makerFee :- MultiplyScaled(q, MAKER_FEE_RATE);
      var takerFee :- MultiplyScaled(cost, TAKER_FEE_RATE);
      Ok(FeeDetails(MAKER_FEE_RATE, makerFee, Btc, TAKER_FEE_RATE, takerFee, Usd))
  }

  /** What the loop guarantees about a fill it hands to settlement. */
  ghost predicate Settleable(taker: Order, maker: Order, q: nat) {
    && OrderInRange(taker) && OrderInRange(maker)
    && q <= taker.remaining && q <= maker.remaining
    && 0 < Cost(q, maker.price)
    && taker.side != maker.side
    && (if taker.side.Buy? then maker.price <= taker.price else taker.price <= maker.price)
  }

  ghost predicate PartiesInRange(wallets: seq<Wallet>, taker: Order, maker: Order) {
    && taker.user < |wallets| && maker.user < |wallets| && taker.user != maker.user
    && WalletInRange(wallets[taker.user]) && WalletInRange(wallets[maker.user])
  }

  /** Inside the book no step of the debit can overflow. */
  lemma DebitNeverOverflows(o: Order, q: nat)
    requires OrderInRange(o) && q <= o.remaining
    ensures BuyReservationDebit(o, q) == Ok(ReservationDebit(o.remaining, o.price, q))
    ensures 0 <= ReservationDebit(o.remaining, o.price, q) <= DECIMAL_MAX
  {
    CostMonotone(o.remaining, o.original, o.price, o.price);
    CostMonotone(o.remaining - q, o.remaining, o.price, o.price);
    CostIsMultiply(o.remaining, o.price);
    CostIsMultiply(o.remaining - q, o.price);
  }

  /** The cost of a fill fits, whichever side set the price. */
  lemma CostNeverOverflows(taker: Order, maker: Order, q: nat)
    requires OrderInRange(maker) && q <= maker.remaining
    ensures MultiplyScaled(q, maker.price) == Ok(Cost(q, maker.price)) && Cost(q, maker.price) <= DECIMAL_MAX
  {
    CostMonotone(q, maker.original, maker.price, maker.price);
    CostIsMultiply(q, maker.price);
  }

  lemma FeeNeverOverflows(x: nat, rate: nat)
    requires rate <= SCALE && x <= DECIMAL_MAX
    ensures MultiplyScaled(x, rate) == Ok(Cost(x, rate)) && Cost(x, rate) <= x
  {
    FeeAtMost(x, rate);
    CostIsMultiply(x, rate);
  }

  lemma FeesNeverOverflow(taker: Order, maker: Order, q: nat)
    requires OrderInRange(maker) && q <= maker.remaining
    ensures BuildFeeDetails(taker.side, q, maker.price) == Ok(FeesOf(taker.side, q, Cost(q, maker.price)))
  {
    CostNeverOverflows(taker, maker, q);
    FeeNeverOverflows(q, MAKER_FEE_RATE);
    FeeNeverOverflows(q, TAKER_FEE_RATE);
    FeeNeverOverflows(Cost(q, maker.price), MAKER_FEE_RATE);
    FeeNeverOverflows(Cost(q, maker.price), TAKER_FEE_RATE);
  }

  /** The buyer's update; a zero refund may be left out of it. */
  method UpdateBuyer(tx: Database, user: UserId, debit: int, refund: int, received: int, always: bool)
    returns (r: Result<()>)
    modifies tx`wallets
    ensures r.Err? ==> tx.wallets == old(tx.wallets)
    ensures user < |old(tx.wallets)| && WalletInRange(old(tx.wallets)[user]) && 0 <= debit <= DECIMAL_MAX
            && 0 <= refund <= DECIMAL_MAX && 0 <= received <= DECIMAL_MAX ==>
      var w := old(tx.wallets)[user];
      && (r.Ok? <==>
            && debit <= w.reservedUsd
            && w.availableUsd + refund <= DECIMAL_MAX && w.availableBtc + received <= DECIMAL_MAX)
      && (r.Err? ==> r.error == BalanceBounds)
      && (r.Ok? ==> tx.wallets == old(tx.wallets)[user := w.(reservedUsd := w.reservedUsd - debit,
                       availableUsd := w.availableUsd + refund, availableBtc := w.availableBtc + received)])
  {
    var w := if user < |tx.wallets| then tx.wallets[user] else Wallet(0, 0, 0, 0);
    var a, b, c := (ReservedUsd, Decrement(debit)), (AvailableUsd, Increment(refund)),
        (AvailableBtc, Increment(received));
    AppliedThree(w, a, b, c);
    AppliedTwo(w, a, c);
    if always || 0 < refund {
      r := UpdateBalances(tx, user, [a, b, c]);
    } else {
      r := UpdateBalances(tx, user, [a, c]);
    }
  }

  method UpdateSeller(tx: Database, user: UserId, sold: int, received: int) returns (r: Result<()>)
    modifies tx`wallets
    ensures r.Err? ==> tx.wallets == old(tx.wallets)
    ensures user < |old(tx.wallets)| && 0 <= sold <= DECIMAL_MAX && 0 <= received <= DECIMAL_MAX ==>
      var w := old(tx.wallets)[user];
      && (r.Ok? <==> sold <= w.reservedBtc && w.availableUsd + received <= DECIMAL_MAX)
      && (r.Err? ==> r.error == BalanceBounds)
      && (r.Ok? ==>
            tx.wallets == old(tx.wallets)[user := w.(reservedBtc := w.reservedBtc - sold,
                                                     availableUsd := w.availableUsd + received)])
  {
    var w := if user < |tx.wallets| then tx.wallets[user] else Wallet(0, 0, 0, 0);
    var a, b := (ReservedBtc, Decrement(sold)), (AvailableUsd, Increment(received));
    AppliedTwo(w, a, b);
    r := UpdateBalances(tx, user, [a, b]);
  }

  /** What the two updates of a fill must amount to. */
  ghost predicate Performs(before: seq<Wallet>, after: seq<Wallet>, r: Result<()>, m: Movement) {
    && (r.Ok? <==> Move(before, m).Ok?)
    && (r.Ok? ==> after == Move(before, m).value)
    && (r.Err? ==> r.error == BalanceBounds)
  }

  /** The amounts of one fill, in the order the code works them out for a BUY taker. */
  datatype Amounts = Amounts(reservedCost: int, refund: int, receivedBtc: int, receivedUsd: int)

  function BuyTakerAmounts(taker: Order, q: nat, price: nat): Result<Amounts> {
    var reservedCost :- BuyReservationDebit(taker, q);
    var executedCost :- MultiplyScaled(q, price);
    var priceImprovement :- SubtractScaled(reservedCost, executedCost);
    var takerFee :- MultiplyScaled(q, TAKER_FEE_RATE);
    var makerFee :- MultiplyScaled(executedCost, MAKER_FEE_RATE);
    var receivedBtc :- SubtractScaled(q, takerFee);
    var receivedUsd :- SubtractScaled(executedCost, makerFee);
    Ok(Amounts(reservedCost, priceImprovement, receivedBtc, receivedUsd))
  }

  /** The same for a SELL taker, whose maker holds the USD reservation. */
  function SellTakerAmounts(maker: Order, q: nat, price: nat): Result<Amounts> {
    var executedCost :- MultiplyScaled(q, price);
    var takerFee :- MultiplyScaled(executedCost, TAKER_FEE_RATE);
    var makerFee :- MultiplyScaled(q, MAKER_FEE_RATE);
    var receivedUsd :- SubtractScaled(executedCost, takerFee);
    var receivedBtc :- SubtractScaled(q, makerFee);
    var reservedCost :- BuyReservationDebit(maker, q);
    var roundingRefund :- SubtractScaled(reservedCost, executedCost);
    Ok(Amounts(reservedCost, roundingRefund, receivedBtc, receivedUsd))
  }

  ghost predicate AmountsOf(a: Amounts, m: Movement) {
    && a == Amounts(m.debit, m.debit - m.cost, m.amount - m.btcFee, m.cost - m.usdFee)
    && InRange(a.reservedCost) && InRange(a.refund) && InRange(a.receivedBtc) && InRange(a.receivedUsd)
    && m.amount <= DECIMAL_MAX
  }

  /** Whichever side takes, no step overflows and no amount is negative. */
  lemma AmountsNeverOverflow(taker: Order, maker: Order, q: nat)
    requires Settleable(taker, maker, q)
    ensures var r := if taker.side.Buy? then BuyTakerAmounts(taker, q, maker.price)
            else SellTakerAmounts(maker, q, maker.price);
            r.Ok? && AmountsOf(r.value, MovementOf(taker, taker.remaining, maker, q))
  {
    var b := if taker.side.Buy? then taker else maker;
    DebitNeverOverflows(b, q);
    CostNeverOverflows(taker, maker, q);
    FeeNeverOverflows(q, TAKER_FEE_RATE);
    FeeNeverOverflows(q, MAKER_FEE_RATE);
    FeeNeverOverflows(Cost(q, maker.price), TAKER_FEE_RATE);
    FeeNeverOverflows(Cost(q, maker.price), MAKER_FEE_RATE);
    DebitCoversCost(b.remaining, b.price, q, maker.price);
  }

  method ApplyBuyTakerBalances(tx: Database, taker: Order, maker: Order, q: nat, price: nat) returns (r: Result<()>)
    modifies tx`wallets
    ensures price == maker.price && taker.side.Buy? && Settleable(taker, maker, q)
            && PartiesInRange(old(tx.wallets), taker, maker) ==>
              Performs(old(tx.wallets), tx.wallets, r, MovementOf(taker, taker.remaining, maker, q))
  {
    if Settleable(taker, maker, q) {
      AmountsNeverOverflow(taker, maker, q);
    }
    var a :- BuyTakerAmounts(taker, q, price);
    var updated :- UpdateBuyer(tx, taker.user, a.reservedCost, a.refund, a.receivedBtc, true);
    r := UpdateSeller(tx, maker.user, q, a.receivedUsd);
  }

  method ApplySellTakerBalances(tx: Database, taker: Order, maker: Order, q: nat, price: nat) returns (r: Result<()>)
    modifies tx`wallets
    ensures price == maker.price && taker.side.Sell? && Settleable(taker, maker, q)
            && PartiesInRange(old(tx.wallets), taker, maker) ==>
              Performs(old(tx.wallets), tx.wallets, r, MovementOf(taker, taker.remaining, maker, q))
  {
    if Settleable(taker, maker, q) {
      AmountsNeverOverflow(taker, maker, q);
    }
    var a :- SellTakerAmounts(maker, q, price);
    var updated :- UpdateSeller(tx, taker.user, q, a.receivedUsd);
    r := UpdateBuyer(tx, maker.user, a.reservedCost, a.refund, a.receivedBtc, false);
  }

  /** applyTradeBalances: the taker carries its live remainder. */
  method ApplyTradeBalances(tx: Database, taker: Order, maker: Order, q: nat, price: nat) returns (r: Result<()>)
    modifies tx`wallets
    ensures price == maker.price && Settleable(taker, maker, q) && PartiesInRange(old(tx.wallets), taker, maker) ==>
              Performs(old(tx.wallets), tx.wallets, r, MovementOf(taker, taker.remaining, maker, q))
  {
    CostIsMultiply(q, price);
    if Settleable(taker, maker, q) {
      CostNeverOverflows(taker, maker, q);
    }
    var cost :- MultiplyScaled(q, price);
    if cost <= 0 {
      return Err(ZeroCost);
    }
    if taker.side.Buy? {
      r := ApplyBuyTakerBalances(tx, taker, maker, q, price);
    } else {
      r := ApplySellTakerBalances(tx, taker, maker, q, price);
    }
  }
}
