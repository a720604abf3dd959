/**
 The monetary books: what the wallets must hold given the orders, the trades and
 the opening balances, and how the books change when one row changes.
 */
module Ledger {
  import opened Decimals
  import opened Model
  import opened Engine

  /** What order `o` reserves of `asset` for user `u`. */
  function Hold(o: Order, u: UserId, asset: Asset): nat {
    if o.user == u && IsActive(o.status) then Held(o, asset) else 0
  }

  /** Reservations owed to `u`, each order rounded on its own. */
  function Holds(orders: seq<Order>, u: UserId, asset: Asset): nat {
    if orders == [] then 0
    else Holds(orders[..|orders| - 1], u, asset) + Hold(orders[|orders| - 1], u, asset)
  }

  ghost predicate Refers(t: Trade, orders: seq<Order>) {
    t.maker < |orders| && t.taker < |orders| && t.buy < |orders| && t.sell < |orders|
  }

  /** What a fill adds to its buyer, and to its seller. */
  function BuyerGain(t: Trade, asset: Asset): int {
    if asset.Btc? then t.amount - FeeIn(t.fees, Btc) else -(Cost(t.amount, t.price) as int)
  }

  function SellerGain(t: Trade, asset: Asset): int {
    if asset.Btc? then -(t.amount as int) else Cost(t.amount, t.price) - FeeIn(t.fees, Usd)
  }

  function Gain(t: Trade, orders: seq<Order>, u: UserId, asset: Asset): int
    requires Refers(t, orders)
  {
    (if orders[t.buy].user == u then BuyerGain(t, asset) else 0)
    + (if orders[t.sell].user == u then SellerGain(t, asset) else 0)
  }

  ghost predicate AllRefer(trades: seq<Trade>, orders: seq<Order>) {
    forall k :: 0 <= k < |trades| ==> Refers(trades[k], orders)
  }

  ghost function Gains(trades: seq<Trade>, orders: seq<Order>, u: UserId, asset: Asset): int
    requires AllRefer(trades, orders)
  {
    if trades == [] then 0
    else Gains(trades[..|trades| - 1], orders, u, asset) + Gain(trades[|trades| - 1], orders, u, asset)
  }

  function FeesPaid(trades: seq<Trade>, asset: Asset): nat {
    if trades == [] then 0
    else FeesPaid(trades[..|trades| - 1], asset) + FeeIn(trades[|trades| - 1].fees, asset)
  }

  function Owned(w: Wallet, asset: Asset): int {
    Available(w, asset) + Reserved(w, asset)
  }

  function TotalOwned(wallets: seq<Wallet>, asset: Asset): int {
    if wallets == [] then 0
    else TotalOwned(wallets[..|wallets| - 1], asset) + Owned(wallets[|wallets| - 1], asset)
  }

  function OpeningIn(b: Opening, asset: Asset): nat {
    if asset.Btc? then b.btc else b.usd
  }

  function TotalOpening(openings: seq<Opening>, asset: Asset): nat {
    if openings == [] then 0
    else TotalOpening(openings[..|openings| - 1], asset) + OpeningIn(openings[|openings| - 1], asset)
  }

  /** How much of order `i` the trades executed, as maker or taker. */
  function Executed(trades: seq<Trade>, i: OrderId): nat {
    if trades == [] then 0
    else
      var t := trades[|trades| - 1];
      Executed(trades[..|trades| - 1], i) + if t.maker == i || t.taker == i then t.amount else 0
  }

  // ----- the invariant -----

  /** One user's wallet agrees with the orders and with the trade ledger. */
  ghost predicate AccountBalances(wallets: seq<Wallet>, orders: seq<Order>, trades: seq<Trade>,
          openings: seq<Opening>, u: UserId, asset: Asset)
    requires u < |wallets| == |openings| && AllRefer(trades, orders)
  {
    && Reserved(wallets[u], asset) == Holds(orders, u, asset)
    && Owned(wallets[u], asset) == OpeningIn(openings[u], asset) + Gains(trades, orders, u, asset)
  }

  /** A recorded fill between two users, at the maker's price and within both limits. */
  ghost predicate TradeValid(t: Trade, orders: seq<Order>)
  {
    && Refers(t, orders)
    && t.maker != t.taker
    && orders[t.maker].user != orders[t.taker].user
    && orders[t.buy].side.Buy? && orders[t.sell].side.Sell?
    && t.takerSide == orders[t.taker].side
    && t.buy == (if t.takerSide.Buy? then t.taker else t.maker)
    && t.sell == (if t.takerSide.Buy? then t.maker else t.taker)
    && t.price == orders[t.maker].price
    && orders[t.sell].price <= t.price <= orders[t.buy].price
    && 0 < t.amount && 0 < Cost(t.amount, t.price)
    && t.fees == FeesOf(t.takerSide, t.amount, Cost(t.amount, t.price))
  }

  ghost predicate TradesValid(trades: seq<Trade>, orders: seq<Order>) {
    forall k :: 0 <= k < |trades| ==> TradeValid(trades[k], orders)
  }

  ghost predicate Quantities(orders: seq<Order>, trades: seq<Trade>) {
    forall i :: 0 <= i < |orders| ==> orders[i].original - orders[i].remaining == Executed(trades, i)
  }

  ghost predicate OrdersInRange(orders: seq<Order>, accounts: nat) {
    forall i :: 0 <= i < |orders| ==> OrderInRange(orders[i]) && orders[i].user < accounts
  }

  /** Everything but the status column, which is stale for the taker inside the settlement loop. */
  ghost predicate Books(wallets: seq<Wallet>, orders: seq<Order>, trades: seq<Trade>, openings: seq<Opening>) {
    && |wallets| == |openings|
    && (forall u :: 0 <= u < |wallets| ==> WalletInRange(wallets[u]))
    && OrdersInRange(orders, |wallets|)
    && TradesValid(trades, orders)
    && Quantities(orders, trades)
    && (forall u, asset :: 0 <= u < |wallets| ==> AccountBalances(wallets, orders, trades, openings, u, asset))
    && (forall asset :: TotalOwned(wallets, asset) + FeesPaid(trades, asset) == TotalOpening(openings, asset))
  }

  // ----- frame lemmas -----

  lemma {:induction false} HoldsUpdate(orders: seq<Order>, i: OrderId, o: Order, u: UserId, asset: Asset)
    requires i < |orders|
    ensures Holds(orders[i := o], u, asset) == Holds(orders, u, asset) - Hold(orders[i], u, asset) + Hold(o, u, asset)
  {
    var n := |orders| - 1;
    if i == n {
      assert orders[i := o][..n] == orders[..n];
    } else {
      assert orders[i := o][..n] == orders[..n][i := o];
      HoldsUpdate(orders[..n], i, o, u, asset);
    }
  }

  lemma HoldsAppend(orders: seq<Order>, o: Order, u: UserId, asset: Asset)
    ensures Holds(orders + [o], u, asset) == Holds(orders, u, asset) + Hold(o, u, asset)
  {
  }

  /** An active order's own hold is part of its owner's total. */
  lemma {:induction false} HoldsAtLeast(orders: seq<Order>, i: OrderId, u: UserId, asset: Asset)
    requires i < |orders|
    ensures Hold(orders[i], u, asset) <= Holds(orders, u, asset)
  {
    if i < |orders| - 1 {
      HoldsAtLeast(orders[..|orders| - 1], i, u, asset);
    }
  }

  lemma {:induction false} HoldsOfNewUser(orders: seq<Order>, u: UserId, asset: Asset)
    requires forall i :: 0 <= i < |orders| ==> orders[i].user != u
    ensures Holds(orders, u, asset) == 0
  {
    if orders != [] {
      HoldsOfNewUser(orders[..|orders| - 1], u, asset);
    }
  }

  lemma {:induction false} TotalUpdate(wallets: seq<Wallet>, u: UserId, w: Wallet, asset: Asset)
    requires u < |wallets|
    ensures TotalOwned(wallets[u := w], asset)
            == TotalOwned(wallets, asset) - Owned(wallets[u], asset) + Owned(w, asset)
  {
    var n := |wallets| - 1;
    if u == n {
      assert wallets[u := w][..n] == wallets[..n];
    } else {
      assert wallets[u := w][..n] == wallets[..n][u := w];
      TotalUpdate(wallets[..n], u, w, asset);
    }
  }

  lemma TotalAppend(wallets: seq<Wallet>, w: Wallet, asset: Asset)
    ensures TotalOwned(wallets + [w], asset) == TotalOwned(wallets, asset) + Owned(w, asset)
  {
  }

  lemma {:induction false} TotalNonNegative(wallets: seq<Wallet>, asset: Asset)
    requires forall u :: 0 <= u < |wallets| ==> WalletInRange(wallets[u])
    ensures 0 <= TotalOwned(wallets, asset)
  {
    if wallets != [] {
      TotalNonNegative(wallets[..|wallets| - 1], asset);
    }
  }

  /** Two different accounts together own no more than everyone does. */
  lemma {:induction false} TwoOwnAtMost(wallets: seq<Wallet>, u: UserId, v: UserId, asset: Asset)
    requires u < |wallets| && v < |wallets| && u != v
    requires forall k :: 0 <= k < |wallets| ==> WalletInRange(wallets[k])
    ensures Owned(wallets[u], asset) + Owned(wallets[v], asset) <= TotalOwned(wallets, asset)
  {
    var n := |wallets| - 1;
    if u == n {
      OneOwnsAtMost(wallets[..n], v, asset);
    } else if v == n {
      OneOwnsAtMost(wallets[..n], u, asset);
    } else {
      TwoOwnAtMost(wallets[..n], u, v, asset);
    }
  }

  lemma {:induction false} OneOwnsAtMost(wallets: seq<Wallet>, u: UserId, asset: Asset)
    requires u < |wallets|
    requires forall k :: 0 <= k < |wallets| ==> WalletInRange(wallets[k])
    ensures Owned(wallets[u], asset) <= TotalOwned(wallets, asset)
  {
    var n := |wallets| - 1;
    if u == n {
      TotalNonNegative(wallets[..n], asset);
    } else {
      OneOwnsAtMost(wallets[..n], u, asset);
    }
  }

  /** The columns of an order that never change. */
  ghost predicate SameTerms(a: Order, b: Order) {
    && a.sequence == b.sequence && a.user == b.user && a.side == b.side
    && a.price == b.price && a.original == b.original
  }

  /** The table keeps its rows' terms and may have new rows at its end. */
  ghost predicate Extends(orders: seq<Order>, later: seq<Order>) {
    && |orders| <= |later|
    && forall i :: 0 <= i < |orders| ==> SameTerms(orders[i], later[i])
  }

  lemma {:induction false} GainsFrame(trades: seq<Trade>, orders: seq<Order>, later: seq<Order>, u: UserId,
          asset: Asset)
    requires AllRefer(trades, orders) && Extends(orders, later)
    ensures AllRefer(trades, later) && Gains(trades, later, u, asset) == Gains(trades, orders, u, asset)
  {
    if trades != [] {
      var n := |trades| - 1;
      assert Refers(trades[n], orders);
      GainsFrame(trades[..n], orders, later, u, asset);
    }
  }

  lemma GainsAppend(trades: seq<Trade>, t: Trade, orders: seq<Order>, u: UserId, asset: Asset)
    requires AllRefer(trades, orders) && Refers(t, orders)
    ensures AllRefer(trades + [t], orders)
    ensures Gains(trades + [t], orders, u, asset) == Gains(trades, orders, u, asset) + Gain(t, orders, u, asset)
  {
  }

  lemma {:induction false} GainsOfNewUser(trades: seq<Trade>, orders: seq<Order>, u: UserId, asset: Asset)
    requires AllRefer(trades, orders)
    requires forall i :: 0 <= i < |orders| ==> orders[i].user != u
    ensures Gains(trades, orders, u, asset) == 0
  {
    if trades != [] {
      assert Refers(trades[|trades| - 1], orders);
      GainsOfNewUser(trades[..|trades| - 1], orders, u, asset);
    }
  }

  lemma TradesValidFrame(trades: seq<Trade>, orders: seq<Order>, later: seq<Order>)
    requires TradesValid(trades, orders) && Extends(orders, later)
    ensures TradesValid(trades, later) && AllRefer(trades, later) && AllRefer(trades, orders)
  {
  }

  lemma FeesAppend(trades: seq<Trade>, t: Trade, asset: Asset)
    ensures FeesPaid(trades + [t], asset) == FeesPaid(trades, asset) + FeeIn(t.fees, asset)
  {
  }

  lemma {:induction false} ExecutedOfNewOrder(trades: seq<Trade>, orders: seq<Order>, i: OrderId)
    requires AllRefer(trades, orders) && |orders| <= i
    ensures Executed(trades, i) == 0
  {
    if trades != [] {
      assert Refers(trades[|trades| - 1], orders);
      ExecutedOfNewOrder(trades[..|trades| - 1], orders, i);
    }
  }
}
