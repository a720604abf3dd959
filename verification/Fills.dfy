/** One fill keeps the books, and nothing but a full balance column can stop it. */
module Fills {
  import opened Outcomes
  import opened Decimals
  import opened Model
  import opened Engine
  import opened Ledger

  // ----- arithmetic of one fill -----

  lemma FeeAtMost(x: nat, rate: nat)
    requires rate <= SCALE
    ensures Cost(x, rate) <= x
  {
  }

  /** Each BUY debit covers what the fill costs; at the limit price at most one unit comes back. */
  lemma DebitCoversCost(remaining: nat, limit: nat, q: nat, price: nat)
    requires q <= remaining && price <= limit
    ensures Cost(q, price) <= ReservationDebit(remaining, limit, q) <= Cost(remaining, limit)
    ensures price == limit ==> ReservationDebit(remaining, limit, q) - Cost(q, price) <= 1
  {
    CostOfSum(q, remaining - q, limit);
    CostMonotone(q, q, price, limit);
  }

  ghost predicate Reduced(o: Order, o': Order, q: nat) {
    && SameTerms(o, o')
    && q <= o.remaining
    && o'.remaining == o.remaining - q
    && IsActive(o.status)
    && (IsActive(o'.status) || o'.remaining == 0)
  }

  /** `later` is `orders` with the two sides of a fill of `q` reduced. */
  ghost predicate BothReduced(orders: seq<Order>, later: seq<Order>, t: Trade) {
    && |later| == |orders|
    && Refers(t, orders)
    && Reduced(orders[t.maker], later[t.maker], t.amount)
    && Reduced(orders[t.taker], later[t.taker], t.amount)
    && later == orders[t.maker := later[t.maker]][t.taker := later[t.taker]]
  }

  /** The movement a trade makes, read off the rows before it. */
  function MovementFor(t: Trade, orders: seq<Order>): Movement
    requires t.buy < |orders| && t.sell < |orders| && t.amount <= orders[t.buy].remaining
  {
    var b := orders[t.buy];
    Movement(b.user, orders[t.sell].user, ReservationDebit(b.remaining, b.price, t.amount),
             Cost(t.amount, t.price), t.amount, FeeIn(t.fees, Btc), FeeIn(t.fees, Usd))
  }

  ghost predicate FillStep(wallets: seq<Wallet>, orders: seq<Order>, trades: seq<Trade>, openings: seq<Opening>,
                           t: Trade, later: seq<Order>)
  {
    && Books(wallets, orders, trades, openings)
    && TradeValid(t, orders)
    && BothReduced(orders, later, t)
  }

  lemma MovementBounds(wallets: seq<Wallet>, orders: seq<Order>, trades: seq<Trade>, openings: seq<Opening>, t: Trade,
          later: seq<Order>)
    requires FillStep(wallets, orders, trades, openings, t, later)
    ensures var m := MovementFor(t, orders);
            && m.buyer < |wallets| && m.seller < |wallets| && m.buyer != m.seller
            && m.cost <= m.debit <= Cost(orders[t.buy].remaining, orders[t.buy].price)
            && m.btcFee <= m.amount && m.usdFee <= m.cost
            && m.debit <= wallets[m.buyer].reservedUsd
            && m.amount <= wallets[m.seller].reservedBtc
  {
    var b, s := orders[t.buy], orders[t.sell];
    DebitCoversCost(b.remaining, b.price, t.amount, t.price);
    FeeAtMost(t.amount, MAKER_FEE_RATE);
    FeeAtMost(t.amount, TAKER_FEE_RATE);
    FeeAtMost(Cost(t.amount, t.price), MAKER_FEE_RATE);
    FeeAtMost(Cost(t.amount, t.price), TAKER_FEE_RATE);
    HoldsAtLeast(orders, t.buy, b.user, Usd);
    HoldsAtLeast(orders, t.sell, s.user, Btc);
    assert AccountBalances(wallets, orders, trades, openings, b.user, Usd);
    assert AccountBalances(wallets, orders, trades, openings, s.user, Btc);
  }

  /** With bounded supply every guard of a fill's two wallet updates holds. */
  lemma FillFits(wallets: seq<Wallet>, orders: seq<Order>, trades: seq<Trade>, openings: seq<Opening>, t: Trade,
          later: seq<Order>)
    requires FillStep(wallets, orders, trades, openings, t, later)
    requires forall asset :: TotalOpening(openings, asset) <= DECIMAL_MAX
    ensures Move(wallets, MovementFor(t, orders)).Ok?
  {
    MovementBounds(wallets, orders, trades, openings, t, later);
    var m := MovementFor(t, orders);
    forall asset
      ensures TotalOwned(wallets, asset) <= DECIMAL_MAX
      ensures Owned(wallets[m.buyer], asset) + Owned(wallets[m.seller], asset) <= DECIMAL_MAX
    {
      assert TotalOwned(wallets, asset) + FeesPaid(trades, asset) == TotalOpening(openings, asset);
      TwoOwnAtMost(wallets, m.buyer, m.seller, asset);
    }
    assert WalletInRange(wallets[m.buyer]) && WalletInRange(wallets[m.seller]);
    assert Owned(wallets[m.buyer], Btc) + Owned(wallets[m.seller], Btc) <= DECIMAL_MAX;
    assert Owned(wallets[m.buyer], Usd) + Owned(wallets[m.seller], Usd) <= DECIMAL_MAX;
  }

  lemma FillKeepsRanges(wallets: seq<Wallet>, orders: seq<Order>, trades: seq<Trade>, openings: seq<Opening>,
                        t: Trade, later: seq<Order>, wallets': seq<Wallet>)
    requires FillStep(wallets, orders, trades, openings, t, later)
    requires Move(wallets, MovementFor(t, orders)) == Ok(wallets')
    ensures |wallets'| == |openings|
    ensures forall u :: 0 <= u < |wallets'| ==> WalletInRange(wallets'[u])
    ensures OrdersInRange(later, |wallets'|)
    ensures Extends(orders, later)
    ensures TradesValid(trades + [t], later)
  {
    MovementBounds(wallets, orders, trades, openings, t, later);
    forall u | 0 <= u < |wallets'|
      ensures WalletInRange(wallets'[u])
    {
      assert WalletInRange(wallets[u]);
    }
    forall i | 0 <= i < |later|
      ensures OrderInRange(later[i]) && later[i].user < |wallets'| && SameTerms(orders[i], later[i])
    {
      assert OrderInRange(orders[i]);
    }
    TradesValidFrame(trades, orders, later);
    assert TradeValid(t, later);
  }

  lemma FillKeepsQuantities(orders: seq<Order>, trades: seq<Trade>, t: Trade, later: seq<Order>)
    requires Quantities(orders, trades) && BothReduced(orders, later, t) && t.maker != t.taker
    ensures Quantities(later, trades + [t])
  {
  }

  lemma FillKeepsHolds(orders: seq<Order>, t: Trade, later: seq<Order>, u: UserId)
    requires BothReduced(orders, later, t) && TradeValid(t, orders)
    ensures var m := MovementFor(t, orders);
            && Holds(later, u, Usd) == Holds(orders, u, Usd) - (if u == m.buyer then m.debit else 0)
            && Holds(later, u, Btc) == Holds(orders, u, Btc) - (if u == m.seller then m.amount else 0)
  {
    var mid := orders[t.maker := later[t.maker]];
    HoldsUpdate(orders, t.maker, later[t.maker], u, Usd);
    HoldsUpdate(mid, t.taker, later[t.taker], u, Usd);
    HoldsUpdate(orders, t.maker, later[t.maker], u, Btc);
    HoldsUpdate(mid, t.taker, later[t.taker], u, Btc);
    CostOfZero(orders[t.buy].price);
    assert mid[t.taker] == orders[t.taker];
    HoldReduced(orders[t.maker], later[t.maker], t.amount, u);
    HoldReduced(orders[t.taker], later[t.taker], t.amount, u);
  }

  lemma HoldReduced(o: Order, o': Order, q: nat, u: UserId)
    requires Reduced(o, o', q)
    ensures Hold(o, u, Usd) - Hold(o', u, Usd)
         == if o.user == u && o.side.Buy? then ReservationDebit(o.remaining, o.price, q) else 0
    ensures Hold(o, u, Btc) - Hold(o', u, Btc) == if o.user == u && o.side.Sell? then q else 0
  {
  }

  lemma FillKeepsAccount(wallets: seq<Wallet>, orders: seq<Order>, trades: seq<Trade>, openings: seq<Opening>,
                         t: Trade, later: seq<Order>, wallets': seq<Wallet>, u: UserId, asset: Asset)
    requires FillStep(wallets, orders, trades, openings, t, later)
    requires Move(wallets, MovementFor(t, orders)) == Ok(wallets')
    requires AllRefer(trades + [t], later) && Extends(orders, later) && |wallets'| == |openings| && u < |wallets'|
    ensures AccountBalances(wallets', later, trades + [t], openings, u, asset)
  {
    assert AccountBalances(wallets, orders, trades, openings, u, asset);
    TradesValidFrame(trades, orders, later);
    FillKeepsHolds(orders, t, later, u);
    GainsFrame(trades, orders, later, u, asset);
    GainsAppend(trades, t, later, u, asset);
    assert orders[t.buy].user != orders[t.sell].user;
    // The two assets move by different amounts.
    match asset
    case Btc =>
    case Usd =>
  }

  lemma FillKeepsTotals(wallets: seq<Wallet>, trades: seq<Trade>, t: Trade, m: Movement, wallets': seq<Wallet>,
          asset: Asset)
    requires Move(wallets, m) == Ok(wallets')
    requires m.amount == t.amount && m.btcFee == FeeIn(t.fees, Btc) && m.usdFee == FeeIn(t.fees, Usd)
    ensures TotalOwned(wallets', asset) + FeesPaid(trades + [t], asset)
            == TotalOwned(wallets, asset) + FeesPaid(trades, asset)
  {
    FeesAppend(trades, t, asset);
    var mid := wallets[m.buyer := BuyerMoved(wallets[m.buyer], m)];
    TotalUpdate(wallets, m.buyer, BuyerMoved(wallets[m.buyer], m), asset);
    TotalUpdate(mid, m.seller, SellerMoved(wallets[m.seller], m), asset);
    // The two assets move by different amounts.
    match asset
    case Btc =>
    case Usd =>
  }

  lemma FillKeepsBooks(wallets: seq<Wallet>, orders: seq<Order>, trades: seq<Trade>, openings: seq<Opening>,
                       t: Trade, later: seq<Order>, wallets': seq<Wallet>)
    requires FillStep(wallets, orders, trades, openings, t, later)
    requires Move(wallets, MovementFor(t, orders)) == Ok(wallets')
    ensures Books(wallets', later, trades + [t], openings)
  {
    FillKeepsRanges(wallets, orders, trades, openings, t, later, wallets');
    FillKeepsQuantities(orders, trades, t, later);
    assert AllRefer(trades + [t], later) by { TradesValidFrame(trades + [t], later, later); }
    forall u, asset | 0 <= u < |wallets'|
      ensures AccountBalances(wallets', later, trades + [t], openings, u, asset)
    {
      FillKeepsAccount(wallets, orders, trades, openings, t, later, wallets', u, asset);
    }
    forall asset
      ensures TotalOwned(wallets', asset) + FeesPaid(trades + [t], asset) == TotalOpening(openings, asset)
    {
      FillKeepsTotals(wallets, trades, t, MovementFor(t, orders), wallets', asset);
      assert TotalOwned(wallets, asset) + FeesPaid(trades, asset) == TotalOpening(openings, asset);
    }
  }
}
