/**
 The independent ledger replay of the test support. It walks the trades, the orders
 and the wallets of a snapshot once each, with its own arithmetic, and accepts or
 rejects the snapshot. Rows are named by position, so identities are unique here.
 */
module MonetaryOracle {
  import opened Outcomes
  import opened Decimals
  import opened Model
  import opened Engine
  import opened Ledger
  import opened Fills
  import opened Settlement
  import opened Reachability
  import opened BuyOrderCost

  // ----- the oracle's own checks -----

  const MAKER_PER_MILLE: nat := 5
  const TAKER_PER_MILLE: nat := 3

  function OracleFee(gross: nat, rate: nat): nat {
    gross * rate / 1000
  }

  function ReceivedAsset(o: Order): Asset {
    if o.side.Buy? then Btc else Usd
  }

  predicate LegsAccepted(t: Trade, orders: seq<Order>, accounts: nat) {
    && t.maker < |orders| && t.taker < |orders| && t.buy < |orders| && t.sell < |orders|
    && orders[t.maker].user != orders[t.taker].user
    && orders[t.maker].side != orders[t.taker].side
    && orders[t.buy].side.Buy?
    && orders[t.sell].side.Sell?
    && t.takerSide == orders[t.taker].side
    && t.buy == (if orders[t.maker].side.Buy? then t.maker else t.taker)
    && t.sell == (if orders[t.maker].side.Sell? then t.maker else t.taker)
    && t.amount <= DECIMAL_MAX && t.price <= DECIMAL_MAX
    && 0 < t.amount && 0 < Cost(t.amount, t.price)
    && t.price == orders[t.maker].price
    && t.price <= orders[t.buy].price && orders[t.sell].price <= t.price
    && orders[t.buy].user < accounts && orders[t.sell].user < accounts
  }

  predicate FeeAccepted(fee: nat, feeRate: nat, feeAsset: Asset, o: Order, rate: nat, t: Trade) {
    && fee <= DECIMAL_MAX
    && feeAsset == ReceivedAsset(o)
    && feeRate == rate * SCALE / 1000
    && fee == OracleFee(if ReceivedAsset(o).Btc? then t.amount else Cost(t.amount, t.price), rate)
  }

  predicate TradeAccepted(t: Trade, orders: seq<Order>, accounts: nat) {
    && LegsAccepted(t, orders, accounts)
    && FeeAccepted(t.fees.makerFee, t.fees.makerFeeRate, t.fees.makerFeeAsset, orders[t.maker], MAKER_PER_MILLE, t)
    && FeeAccepted(t.fees.takerFee, t.fees.takerFeeRate, t.fees.takerFeeAsset, orders[t.taker], TAKER_PER_MILLE, t)
  }

  predicate OrderAccepted(o: Order, executed: nat, accounts: nat) {
    && o.original <= DECIMAL_MAX && o.remaining <= DECIMAL_MAX && o.price <= DECIMAL_MAX
    && 0 < o.original && 0 < Cost(o.original, o.price) <= DECIMAL_MAX
    && o.original - o.remaining == executed
    && (if o.status == Filled then o.remaining == 0 else 0 < o.remaining)
    && (o.status == PartiallyFilled ==> o.remaining < o.original)
    && (o.status == Queued || o.status == Open || o.status == Rejected ==> o.remaining == o.original)
    && o.user < accounts
  }

  datatype Account = Account(btc: int, usd: int, reservedBtc: int, reservedUsd: int)

  predicate WalletAccepted(w: Wallet, a: Account) {
    && InRange(w.availableBtc) && InRange(w.availableUsd) && InRange(w.reservedBtc) && InRange(w.reservedUsd)
    && w.reservedBtc == a.reservedBtc
    && w.reservedUsd == a.reservedUsd
    && w.availableBtc == a.btc - w.reservedBtc
    && w.availableUsd == a.usd - w.reservedUsd
  }

  // ----- what acceptance means -----

  ghost predicate TradesAccepted(trades: seq<Trade>, orders: seq<Order>, accounts: nat) {
    forall k :: 0 <= k < |trades| ==> TradeAccepted(trades[k], orders, accounts)
  }

  ghost predicate OrdersAccepted(orders: seq<Order>, trades: seq<Trade>, accounts: nat) {
    forall i :: 0 <= i < |orders| ==> OrderAccepted(orders[i], Executed(trades, i), accounts)
  }

  /** The account the replay ends with for user `u`. */
  ghost function LedgerAccount(s: State, openings: seq<Opening>, u: UserId): Account
    requires AllRefer(s.trades, s.orders) && u < |openings|
  {
    Account(openings[u].btc + Gains(s.trades, s.orders, u, Btc), openings[u].usd + Gains(s.trades, s.orders, u, Usd),
            Holds(s.orders, u, Btc), Holds(s.orders, u, Usd))
  }

  ghost predicate Accepts(s: State, openings: seq<Opening>) {
    && |s.wallets| == |openings|
    && AllRefer(s.trades, s.orders)
    && TradesAccepted(s.trades, s.orders, |openings|)
    && OrdersAccepted(s.orders, s.trades, |openings|)
    && (forall u :: 0 <= u < |s.wallets| ==> WalletAccepted(s.wallets[u], LedgerAccount(s, openings, u)))
    && TotalOwned(s.wallets, Btc) + FeesPaid(s.trades, Btc) == TotalOpening(openings, Btc)
    && TotalOwned(s.wallets, Usd) + FeesPaid(s.trades, Usd) == TotalOpening(openings, Usd)
  }

  // ----- the replay -----

  function Posted(ledger: seq<Account>, t: Trade, orders: seq<Order>): (r: seq<Account>)
    requires LegsAccepted(t, orders, |ledger|)
    ensures |r| == |ledger|
  {
    var b, s, cost := orders[t.buy].user, orders[t.sell].user, Cost(t.amount, t.price);
    var bought := ledger[b := ledger[b].(btc := ledger[b].btc + t.amount, usd := ledger[b].usd - cost)];
    bought[s := bought[s].(btc := bought[s].btc - t.amount, usd := bought[s].usd + cost)]
  }

  function Charged(ledger: seq<Account>, t: Trade, orders: seq<Order>, asset: Asset, fee: nat): (r: seq<Account>)
    requires LegsAccepted(t, orders, |ledger|)
    ensures |r| == |ledger|
  {
    var u := if asset.Btc? then orders[t.buy].user else orders[t.sell].user;
    ledger[u := if asset.Btc? then ledger[u].(btc := ledger[u].btc - fee) else ledger[u].(usd := ledger[u].usd - fee)]
  }

  ghost predicate Replayed(ledger: seq<Account>, openings: seq<Opening>, trades: seq<Trade>, orders: seq<Order>) {
    && |ledger| == |openings|
    && AllRefer(trades, orders)
    && forall u :: 0 <= u < |ledger| ==>
         ledger[u] == Account(openings[u].btc + Gains(trades, orders, u, Btc),
                              openings[u].usd + Gains(trades, orders, u, Usd), 0, 0)
  }

  lemma ReplayStep(ledger: seq<Account>, openings: seq<Opening>, trades: seq<Trade>, orders: seq<Order>, t: Trade,
          later: seq<Account>)
    requires Replayed(ledger, openings, trades, orders) && TradeAccepted(t, orders, |openings|)
    requires later == Charged(Charged(Posted(ledger, t, orders), t, orders, t.fees.makerFeeAsset, t.fees.makerFee),
                              t, orders, t.fees.takerFeeAsset, t.fees.takerFee)
    ensures Replayed(later, openings, trades + [t], orders)
    ensures t.fees.makerFeeAsset != t.fees.takerFeeAsset
  {
    assert Refers(t, orders);
    GainsAppend(trades, t, orders, 0, Btc);
    forall u | 0 <= u < |later|
      ensures later[u] == Account(openings[u].btc + Gains(trades + [t], orders, u, Btc),
                                  openings[u].usd + Gains(trades + [t], orders, u, Usd), 0, 0)
    {
      GainsAppend(trades, t, orders, u, Btc);
      GainsAppend(trades, t, orders, u, Usd);
    }
  }

  lemma PrefixStep<T>(xs: seq<T>, k: nat)
    requires k < |xs|
    ensures xs[..k + 1] == xs[..k] + [xs[k]]
  {
  }

  lemma FeesStep(trades: seq<Trade>, t: Trade, orders: seq<Order>, accounts: nat)
    requires TradeAccepted(t, orders, accounts)
    ensures t.fees.makerFeeAsset != t.fees.takerFeeAsset
    ensures FeesPaid(trades + [t], Btc)
         == FeesPaid(trades, Btc) + if t.fees.makerFeeAsset.Btc? then t.fees.makerFee else t.fees.takerFee
    ensures FeesPaid(trades + [t], Usd)
         == FeesPaid(trades, Usd) + if t.fees.makerFeeAsset.Btc? then t.fees.takerFee else t.fees.makerFee
  {
  }

  /** Posts a trade to both accounts, then charges each role's fee. */
  method ReplayOne(ledger: seq<Account>, ghost openings: seq<Opening>, ghost trades: seq<Trade>, orders: seq<Order>,
          t: Trade)
    returns (later: seq<Account>)
    requires Replayed(ledger, openings, trades, orders) && TradeAccepted(t, orders, |openings|)
    ensures Replayed(later, openings, trades + [t], orders)
  {
    later := Posted(ledger, t, orders);
    later := Charged(later, t, orders, t.fees.makerFeeAsset, t.fees.makerFee);
    later := Charged(later, t, orders, t.fees.takerFeeAsset, t.fees.takerFee);
    ReplayStep(ledger, openings, trades, orders, t, later);
  }

  /** `executed` is what the trades executed of every order. */
  ghost predicate Tallied(executed: seq<nat>, trades: seq<Trade>) {
    forall i :: 0 <= i < |executed| ==> executed[i] == Executed(trades, i)
  }

  method ExecuteOne(executed: seq<nat>, ghost trades: seq<Trade>, t: Trade) returns (later: seq<nat>)
    requires t.maker < |executed| && t.taker < |executed| && t.maker != t.taker
    requires Tallied(executed, trades)
    ensures |later| == |executed| && Tallied(later, trades + [t])
  {
    later := executed[t.maker := executed[t.maker] + t.amount];
    later := later[t.taker := later[t.taker] + t.amount];
    ExecutedStep(trades, t, executed, later);
  }

  /** The state of the trade loop after the given trades. */
  ghost predicate ReplayedTo(trades: seq<Trade>, orders: seq<Order>, openings: seq<Opening>,
                             ledger: seq<Account>, executed: seq<nat>, btcFees: nat, usdFees: nat)
  {
    && TradesAccepted(trades, orders, |openings|)
    && Replayed(ledger, openings, trades, orders)
    && |executed| == |orders| && Tallied(executed, trades)
    && btcFees == FeesPaid(trades, Btc) && usdFees == FeesPaid(trades, Usd)
  }

  lemma AcceptedStep(trades: seq<Trade>, t: Trade, orders: seq<Order>, accounts: nat)
    requires TradesAccepted(trades, orders, accounts) && TradeAccepted(t, orders, accounts)
    ensures TradesAccepted(trades + [t], orders, accounts)
  {
  }

  /** One turn of the trade loop: the two accounts, the fees, the executed amounts. */
  method ReplayTurn(ghost trades: seq<Trade>, t: Trade, orders: seq<Order>, openings: seq<Opening>,
          ledger: seq<Account>, executed: seq<nat>, btcFees: nat, usdFees: nat)
    returns (ledger': seq<Account>, executed': seq<nat>, btcFees': nat, usdFees': nat)
    requires ReplayedTo(trades, orders, openings, ledger, executed, btcFees, usdFees)
    requires TradeAccepted(t, orders, |openings|)
    ensures ReplayedTo(trades + [t], orders, openings, ledger', executed', btcFees', usdFees')
  {
    ledger' := ReplayOne(ledger, openings, trades, orders, t);
    executed' := ExecuteOne(executed, trades, t);
    btcFees', usdFees' := if t.fees.makerFeeAsset.Btc? then btcFees + t.fees.makerFee else btcFees + t.fees.takerFee,
                          if t.fees.makerFeeAsset.Btc? then usdFees + t.fees.takerFee else usdFees + t.fees.makerFee;
    FeesStep(trades, t, orders, |openings|);
    AcceptedStep(trades, t, orders, |openings|);
  }

  /** The trade loop. */
  method ReplayTrades(s: State, openings: seq<Opening>)
    returns (ok: bool, ledger: seq<Account>, executed: seq<nat>, btcFees: nat, usdFees: nat)
    ensures ok <==> TradesAccepted(s.trades, s.orders, |openings|)
    ensures ok ==> Replayed(ledger, openings, s.trades, s.orders)
    ensures ok ==> |executed| == |s.orders| && Tallied(executed, s.trades)
    ensures ok ==> btcFees == FeesPaid(s.trades, Btc) && usdFees == FeesPaid(s.trades, Usd)
  {
    ok, btcFees, usdFees := true, 0, 0;
    ledger := seq(|openings|, u requires 0 <= u < |openings| => Account(openings[u].btc, openings[u].usd, 0, 0));
    executed := seq(|s.orders|, _ => 0);
    var k := 0;
    while k < |s.trades|
      invariant 0 <= k <= |s.trades|
      invariant ReplayedTo(s.trades[..k], s.orders, openings, ledger, executed, btcFees, usdFees)
    {
      var t := s.trades[k];
      if !TradeAccepted(t, s.orders, |openings|) {
        ok := false;
        return;
      }
      ledger, executed, btcFees, usdFees :=
        ReplayTurn(s.trades[..k], t, s.orders, openings, ledger, executed, btcFees, usdFees);
      PrefixStep(s.trades, k);
      k := k + 1;
    }
    assert s.trades[..k] == s.trades;
  }

  lemma ExecutedStep(trades: seq<Trade>, t: Trade, before: seq<nat>, later: seq<nat>)
    requires t.maker < |before| && t.taker < |before| && t.maker != t.taker
    requires Tallied(before, trades)
    requires later == before[t.maker := before[t.maker] + t.amount][t.taker := before[t.taker] + t.amount]
    ensures Tallied(later, trades + [t])
  {
  }

  ghost predicate Reservations(btc: seq<nat>, usd: seq<nat>, orders: seq<Order>)
    requires |btc| == |usd|
  {
    forall u :: 0 <= u < |btc| ==> btc[u] == Holds(orders, u, Btc) && usd[u] == Holds(orders, u, Usd)
  }

  method ReserveOne(btc: seq<nat>, usd: seq<nat>, ghost orders: seq<Order>, o: Order)
    returns (laterBtc: seq<nat>, laterUsd: seq<nat>)
    requires |btc| == |usd| && o.user < |btc| && Reservations(btc, usd, orders)
    ensures |laterBtc| == |laterUsd| == |btc| && Reservations(laterBtc, laterUsd, orders + [o])
  {
    laterBtc, laterUsd := btc, usd;
    if IsActive(o.status) {
      if o.side.Buy? {
        laterUsd := usd[o.user := usd[o.user] + Cost(o.remaining, o.price)];
      } else {
        laterBtc := btc[o.user := btc[o.user] + o.remaining];
      }
    }
    forall u, asset
      ensures Holds(orders + [o], u, asset) == Holds(orders, u, asset) + Hold(o, u, asset)
    {
      HoldsAppend(orders, o, u, asset);
    }
  }

  /** The order loop: checks every order and adds the active ones to the reservations. */
  method ReserveOrders(s: State, accounts: nat, executed: seq<nat>)
    returns (ok: bool, reservedBtc: seq<nat>, reservedUsd: seq<nat>)
    requires |executed| == |s.orders| && Tallied(executed, s.trades)
    ensures ok <==> OrdersAccepted(s.orders, s.trades, accounts)
    ensures ok ==> |reservedBtc| == |reservedUsd| == accounts && Reservations(reservedBtc, reservedUsd, s.orders)
  {
    ok := true;
    reservedBtc, reservedUsd := seq(accounts, _ => 0), seq(accounts, _ => 0);
    var i := 0;
    while i < |s.orders|
      invariant 0 <= i <= |s.orders|
      invariant forall j :: 0 <= j < i ==> OrderAccepted(s.orders[j], Executed(s.trades, j), accounts)
      invariant |reservedBtc| == |reservedUsd| == accounts && Reservations(reservedBtc, reservedUsd, s.orders[..i])
    {
      var o := s.orders[i];
      if !OrderAccepted(o, executed[i], accounts) {
        ok := false;
        return;
      }
      PrefixStep(s.orders, i);
      reservedBtc, reservedUsd := ReserveOne(reservedBtc, reservedUsd, s.orders[..i], o);
      i := i + 1;
    }
    assert s.orders[..i] == s.orders;
  }

  /** The wallet loop and the two conservation checks. */
  method CheckWallets(s: State, openings: seq<Opening>, ledger: seq<Account>, btcFees: nat, usdFees: nat)
    returns (ok: bool)
    requires |s.wallets| == |openings| == |ledger|
    ensures ok <==>
      && (forall u :: 0 <= u < |s.wallets| ==> WalletAccepted(s.wallets[u], ledger[u]))
      && TotalOwned(s.wallets, Btc) + btcFees == TotalOpening(openings, Btc)
      && TotalOwned(s.wallets, Usd) + usdFees == TotalOpening(openings, Usd)
  {
    var totalBtc: int, totalUsd: int := btcFees, usdFees;
    var u := 0;
    while u < |s.wallets|
      invariant 0 <= u <= |s.wallets|
      invariant forall v :: 0 <= v < u ==> WalletAccepted(s.wallets[v], ledger[v])
      invariant totalBtc == TotalOwned(s.wallets[..u], Btc) + btcFees
      invariant totalUsd == TotalOwned(s.wallets[..u], Usd) + usdFees
    {
      var w := s.wallets[u];
      if !WalletAccepted(w, ledger[u]) {
        return false;
      }
      PrefixStep(s.wallets, u);
      TotalAppend(s.wallets[..u], w, Btc);
      TotalAppend(s.wallets[..u], w, Usd);
      totalBtc := totalBtc + (w.availableBtc + w.reservedBtc);
      totalUsd := totalUsd + (w.availableUsd + w.reservedUsd);
      u := u + 1;
    }
    assert s.wallets[..u] == s.wallets;
    return totalBtc == TotalOpening(openings, Btc) && totalUsd == TotalOpening(openings, Usd);
  }

  function WithReservations(ledger: seq<Account>, btc: seq<nat>, usd: seq<nat>): (r: seq<Account>)
    requires |btc| == |usd| == |ledger|
    ensures |r| == |ledger|
  {
    if ledger == [] then []
    else [ledger[0].(reservedBtc := btc[0], reservedUsd := usd[0])] + WithReservations(ledger[1..], btc[1..], usd[1..])
  }

  lemma {:induction false} WithReservationsAt(ledger: seq<Account>, btc: seq<nat>, usd: seq<nat>, u: nat)
    requires |btc| == |usd| == |ledger| && u < |ledger|
    ensures WithReservations(ledger, btc, usd)[u] == ledger[u].(reservedBtc := btc[u], reservedUsd := usd[u])
  {
    if u > 0 {
      WithReservationsAt(ledger[1..], btc[1..], usd[1..], u - 1);
    }
  }

  lemma ReplayedAccounts(s: State, openings: seq<Opening>, ledger: seq<Account>, btc: seq<nat>, usd: seq<nat>)
    requires Replayed(ledger, openings, s.trades, s.orders) && |btc| == |usd| == |ledger|
    requires Reservations(btc, usd, s.orders)
    ensures forall u :: 0 <= u < |ledger| ==> WithReservations(ledger, btc, usd)[u] == LedgerAccount(s, openings, u)
  {
    forall u | 0 <= u < |ledger|
      ensures WithReservations(ledger, btc, usd)[u] == LedgerAccount(s, openings, u)
    {
      WithReservationsAt(ledger, btc, usd, u);
    }
  }

  /** assertMonetaryInvariants: the recorded fees of an accepted snapshot, or nothing. */
  method AssertMonetaryInvariants(s: State, openings: seq<Opening>) returns (fees: Option<(nat, nat)>)
    ensures fees.Some? <==> Accepts(s, openings)
    ensures fees.Some? ==> fees.value == (FeesPaid(s.trades, Btc), FeesPaid(s.trades, Usd))
  {
    if |s.wallets| != |openings| {
      return None;
    }
    var ok, ledger, executed, btcFees, usdFees := ReplayTrades(s, openings);
    if !ok {
      return None;
    }
    var ordersOk, reservedBtc, reservedUsd := ReserveOrders(s, |openings|, executed);
    if !ordersOk {
      return None;
    }
    var accounts := WithReservations(ledger, reservedBtc, reservedUsd);
    ReplayedAccounts(s, openings, ledger, reservedBtc, reservedUsd);
    var walletsOk := CheckWallets(s, openings, accounts, btcFees, usdFees);
    return if walletsOk then Some((btcFees, usdFees)) else None;
  }

  // ----- the oracle against the engine's invariant -----

  /** The stored rates give the same fees as the oracle's per-mille arithmetic. */
  lemma RatesAgree(x: nat)
    ensures Cost(x, MAKER_FEE_RATE) == OracleFee(x, MAKER_PER_MILLE)
    ensures Cost(x, TAKER_FEE_RATE) == OracleFee(x, TAKER_PER_MILLE)
  {
  }

  lemma ValidTradeIsAccepted(t: Trade, orders: seq<Order>, accounts: nat)
    requires TradeValid(t, orders) && OrdersInRange(orders, accounts) && t.amount <= orders[t.buy].original
    ensures TradeAccepted(t, orders, accounts)
  {
    var cost := Cost(t.amount, t.price);
    RatesAgree(t.amount);
    RatesAgree(cost);
    CostMonotone(t.amount, orders[t.buy].original, t.price, orders[t.buy].price);
    FeeAtMost(t.amount, MAKER_FEE_RATE);
    FeeAtMost(t.amount, TAKER_FEE_RATE);
    FeeAtMost(cost, MAKER_FEE_RATE);
    FeeAtMost(cost, TAKER_FEE_RATE);
  }

  lemma AcceptedTradeIsValid(t: Trade, orders: seq<Order>, accounts: nat)
    requires TradeAccepted(t, orders, accounts)
    ensures TradeValid(t, orders)
  {
  }

  lemma OrderAcceptedIffConsistent(o: Order, executed: nat, accounts: nat)
    ensures OrderAccepted(o, executed, accounts)
       <==> OrderInRange(o) && StatusConsistent(o) && o.user < accounts && o.original - o.remaining == executed
  {
  }

  lemma WalletAcceptedIffBalanced(s: State, openings: seq<Opening>, u: UserId)
    requires AllRefer(s.trades, s.orders) && u < |s.wallets| == |openings|
    ensures WalletAccepted(s.wallets[u], LedgerAccount(s, openings, u))
       <==> && WalletInRange(s.wallets[u])
            && AccountBalances(s.wallets, s.orders, s.trades, openings, u, Btc)
            && AccountBalances(s.wallets, s.orders, s.trades, openings, u, Usd)
  {
  }

  /** The replay accepts exactly the states whose books balance and whose statuses are consistent. */
  lemma AcceptsIffBooks(s: State, openings: seq<Opening>)
    ensures Accepts(s, openings) <==> Books(s.wallets, s.orders, s.trades, openings) && StatusesConsistent(s.orders)
  {
    if Accepts(s, openings) {
      AcceptedBalances(s, openings);
    }
    if Books(s.wallets, s.orders, s.trades, openings) && StatusesConsistent(s.orders) {
      BalancedIsAccepted(s, openings);
    }
  }

  lemma AcceptedBalances(s: State, openings: seq<Opening>)
    requires Accepts(s, openings)
    ensures Books(s.wallets, s.orders, s.trades, openings) && StatusesConsistent(s.orders)
  {
    forall k | 0 <= k < |s.trades|
      ensures TradeValid(s.trades[k], s.orders)
    {
      AcceptedTradeIsValid(s.trades[k], s.orders, |openings|);
    }
    forall i | 0 <= i < |s.orders|
      ensures OrderInRange(s.orders[i]) && StatusConsistent(s.orders[i]) && s.orders[i].user < |openings|
      ensures s.orders[i].original - s.orders[i].remaining == Executed(s.trades, i)
    {
      OrderAcceptedIffConsistent(s.orders[i], Executed(s.trades, i), |openings|);
    }
    forall u, asset | 0 <= u < |s.wallets|
      ensures AccountBalances(s.wallets, s.orders, s.trades, openings, u, asset) && WalletInRange(s.wallets[u])
    {
      WalletAcceptedIffBalanced(s, openings, u);
      assert asset == Btc || asset == Usd;
    }
    forall asset: Asset
      ensures TotalOwned(s.wallets, asset) + FeesPaid(s.trades, asset) == TotalOpening(openings, asset)
    {
      assert asset == Btc || asset == Usd;
    }
  }

  lemma BalancedIsAccepted(s: State, openings: seq<Opening>)
    requires Books(s.wallets, s.orders, s.trades, openings) && StatusesConsistent(s.orders)
    ensures Accepts(s, openings)
  {
    TradesValidFrame(s.trades, s.orders, s.orders);
    forall k | 0 <= k < |s.trades|
      ensures TradeAccepted(s.trades[k], s.orders, |openings|)
    {
      assert TradeValid(s.trades[k], s.orders);
      ExecutedGrows(s.trades, s.trades[k].buy, k);
      ValidTradeIsAccepted(s.trades[k], s.orders, |openings|);
    }
    forall i | 0 <= i < |s.orders|
      ensures OrderAccepted(s.orders[i], Executed(s.trades, i), |openings|)
    {
      OrderAcceptedIffConsistent(s.orders[i], Executed(s.trades, i), |openings|);
    }
    forall u | 0 <= u < |s.wallets|
      ensures WalletAccepted(s.wallets[u], LedgerAccount(s, openings, u))
    {
      WalletAcceptedIffBalanced(s, openings, u);
      assert AccountBalances(s.wallets, s.orders, s.trades, openings, u, Btc);
      assert AccountBalances(s.wallets, s.orders, s.trades, openings, u, Usd);
    }
  }

  /** Whatever is created, processed, cancelled and rejected, the replay accepts the result. */
  lemma EveryRunIsAccepted(commands: seq<Command>)
    ensures Accepts(Run(commands), OpeningsOf(commands))
  {
    ReachableIsSound(commands);
    AcceptsIffBooks(Run(commands), OpeningsOf(commands));
  }
}
