/** Every state any run of transactions reaches is sound, and what that gives. */
module Reachability {
  import opened Outcomes
  import opened Decimals
  import opened Model
  import opened OrderBook
  import opened Engine
  import opened Ledger
  import opened Settlement
  import opened Market

  // ----- reservations -----

  /** Moving `x` between available and reserved while the owner's holds change by `x`. */
  lemma ReservationKeepsBooks(wallets: seq<Wallet>, orders: seq<Order>, trades: seq<Trade>, openings: seq<Opening>,
                              u: UserId, asset: Asset, x: int, later: seq<Order>)
    requires Books(wallets, orders, trades, openings) && u < |wallets|
    requires Extends(orders, later) && OrdersInRange(later, |wallets|) && Quantities(later, trades)
    requires forall v, a :: Holds(later, v, a) == Holds(orders, v, a) + if v == u && a == asset then x else 0
    requires WalletInRange(Shift(wallets[u], asset, x))
    ensures Books(wallets[u := Shift(wallets[u], asset, x)], later, trades, openings)
  {
    var wallets' := wallets[u := Shift(wallets[u], asset, x)];
    TradesValidFrame(trades, orders, later);
    forall v, a | 0 <= v < |wallets'|
      ensures AccountBalances(wallets', later, trades, openings, v, a)
    {
      assert AccountBalances(wallets, orders, trades, openings, v, a);
      GainsFrame(trades, orders, later, v, a);
    }
    forall a
      ensures TotalOwned(wallets', a) + FeesPaid(trades, a) == TotalOpening(openings, a)
    {
      TotalUpdate(wallets, u, wallets'[u], a);
      assert TotalOwned(wallets, a) + FeesPaid(trades, a) == TotalOpening(openings, a);
    }
  }

  lemma CreateKeepsHolds(orders: seq<Order>, o: Order)
    requires o.status == Queued
    ensures forall v, a :: Holds(orders + [o], v, a)
                        == Holds(orders, v, a)
                           + if v == o.user && a == HeldAsset(o.side) then Held(o, HeldAsset(o.side)) else 0
  {
  }

  lemma CreateKeepsRows(orders: seq<Order>, trades: seq<Trade>, o: Order, accounts: nat)
    requires OrdersInRange(orders, accounts) && Quantities(orders, trades) && TradesValid(trades, orders)
    requires OrderInRange(o) && o.user < accounts && o.remaining == o.original
    ensures OrdersInRange(orders + [o], accounts) && Quantities(orders + [o], trades) && Extends(orders, orders + [o])
  {
    TradesValidFrame(trades, orders, orders);
    ExecutedOfNewOrder(trades, orders, |orders|);
  }

  lemma CreateKeepsBooks(s: State, openings: seq<Opening>, user: UserId, side: Side, amount: int, price: int,
                         sequence: nat, s': State)
    requires Sound(s, openings) && CreateOrder(s, user, side, amount, price, sequence) == Ok(s')
    ensures Books(s'.wallets, s'.orders, s'.trades, openings)
  {
    var o := Order(sequence, user, side, Queued, price, amount, amount);
    var asset, x := HeldAsset(side), Held(o, HeldAsset(side));
    assert s'.orders == s.orders + [o];
    TradesValidFrame(s.trades, s.orders, s'.orders);
    CreateKeepsHolds(s.orders, o);
    assert WalletInRange(s.wallets[user]);
    CreateKeepsRows(s.orders, s.trades, o, |s.wallets|);
    ReservationKeepsBooks(s.wallets, s.orders, s.trades, openings, user, asset, x, s'.orders);
  }

  lemma CreateKeepsSound(s: State, openings: seq<Opening>, user: UserId, side: Side, amount: int, price: int,
                         sequence: nat, s': State)
    requires Sound(s, openings) && CreateOrder(s, user, side, amount, price, sequence) == Ok(s')
    ensures Sound(s', openings)
  {
    CreateKeepsBooks(s, openings, user, side, amount, price, sequence, s');
    CreateKeepsBook(s.orders, Order(sequence, user, side, Queued, price, amount, amount));
  }

  /** A queued order neither crosses nor breaks the status constraint. */
  lemma CreateKeepsBook(orders: seq<Order>, o: Order)
    requires BookUncrossed(orders) && StatusesConsistent(orders) && o.status == Queued && o.remaining == o.original
    requires Sequenced(orders) && !IsTaken(orders, o.sequence)
    ensures BookUncrossed(orders + [o]) && StatusesConsistent(orders + [o]) && Sequenced(orders + [o])
  {
  }

  /** `later` closes active order `id` without executing any of it. */
  ghost predicate Closes(orders: seq<Order>, later: seq<Order>, id: OrderId) {
    && id < |orders| && IsActive(orders[id].status)
    && |later| == |orders|
    && (later[id].status == Cancelled || (later[id].status == Rejected && orders[id].status == Queued))
    && later == orders[id := orders[id].(status := later[id].status)]
  }

  lemma CloseKeepsRows(orders: seq<Order>, trades: seq<Trade>, id: OrderId, later: seq<Order>, accounts: nat)
    requires OrdersInRange(orders, accounts) && Quantities(orders, trades) && Closes(orders, later, id)
    ensures OrdersInRange(later, accounts) && Quantities(later, trades) && Extends(orders, later)
    ensures StatusesConsistent(orders) ==> StatusesConsistent(later)
    ensures BookUncrossed(orders) ==> BookUncrossed(later)
    ensures Sequenced(orders) ==> Sequenced(later)
  {
    forall i | 0 <= i < |later|
      ensures OrderInRange(later[i]) && later[i].user < accounts
      ensures later[i].original - later[i].remaining == Executed(trades, i)
      ensures StatusConsistent(orders[i]) ==> StatusConsistent(later[i])
    {
      assert OrderInRange(orders[i]);
    }
    if BookUncrossed(orders) {
      forall i, j | 0 <= i < |later| && 0 <= j < |later|
        ensures CrossIsDust(later[i], later[j])
      {
        assert CrossIsDust(orders[i], orders[j]);
      }
    }
  }

  lemma CloseKeepsHolds(orders: seq<Order>, id: OrderId, later: seq<Order>)
    requires Closes(orders, later, id)
    ensures var o := orders[id];
            forall v, a :: Holds(later, v, a)
                        == Holds(orders, v, a)
                           - if v == o.user && a == HeldAsset(o.side) then Held(o, HeldAsset(o.side)) else 0
  {
    forall v, a
      ensures Holds(later, v, a) == Holds(orders, v, a) - Hold(orders[id], v, a)
    {
      HoldsUpdate(orders, id, later[id], v, a);
    }
  }

  /** Closing an active order with the release of exactly what it holds. */
  lemma CloseKeepsSound(s: State, openings: seq<Opening>, id: OrderId, s': State)
    requires Sound(s, openings) && Closes(s.orders, s'.orders, id)
    requires Release(s.wallets, s.orders[id]) == Ok(s'.wallets)
    requires s'.trades == s.trades
    ensures Sound(s', openings)
  {
    var o := s.orders[id];
    var asset := HeldAsset(o.side);
    var x: int := -(Held(o, asset) as int);
    CloseKeepsRows(s.orders, s.trades, id, s'.orders, |s.wallets|);
    CloseKeepsHolds(s.orders, id, s'.orders);
    assert WalletInRange(s.wallets[o.user]);
    ReservationKeepsBooks(s.wallets, s.orders, s.trades, openings, o.user, asset, x, s'.orders);
  }

  /** Releasing an active order only needs room in the available column. */
  lemma ReleaseFits(s: State, openings: seq<Opening>, id: OrderId)
    requires Sound(s, openings) && id < |s.orders| && IsActive(s.orders[id].status)
    requires forall asset :: TotalOpening(openings, asset) <= DECIMAL_MAX
    ensures Release(s.wallets, s.orders[id]).Ok?
  {
    var o := s.orders[id];
    var asset := HeldAsset(o.side);
    HoldsAtLeast(s.orders, id, o.user, asset);
    assert AccountBalances(s.wallets, s.orders, s.trades, openings, o.user, asset);
    SupplyBoundsAccount(s, openings, o.user, asset);
  }

  lemma SupplyBoundsAccount(s: State, openings: seq<Opening>, u: UserId, asset: Asset)
    requires Sound(s, openings) && u < |s.wallets|
    ensures Owned(s.wallets[u], asset) <= TotalOpening(openings, asset)
  {
    OneOwnsAtMost(s.wallets, u, asset);
    assert TotalOwned(s.wallets, asset) + FeesPaid(s.trades, asset) == TotalOpening(openings, asset);
  }

  lemma OpenAccountKeepsSound(s: State, openings: seq<Opening>, b: Opening, s': State)
    requires Sound(s, openings) && OpenAccountOf(s, b) == Ok(s')
    ensures Sound(s', openings + [b])
  {
    var u, openings' := |s.wallets|, openings + [b];
    var w := Wallet(b.btc, 0, b.usd, 0);
    assert s'.wallets == s.wallets + [w];
    TradesValidFrame(s.trades, s.orders, s.orders);
    forall i | 0 <= i < |s.orders|
      ensures OrderInRange(s.orders[i]) && s.orders[i].user < |s'.wallets|
    {
    }
    forall v, a | 0 <= v < |s'.wallets|
      ensures AccountBalances(s'.wallets, s.orders, s.trades, openings', v, a)
    {
      if v == u {
        HoldsOfNewUser(s.orders, u, a);
        GainsOfNewUser(s.trades, s.orders, u, a);
      } else {
        assert AccountBalances(s.wallets, s.orders, s.trades, openings, v, a);
      }
    }
    forall a
      ensures TotalOwned(s'.wallets, a) + FeesPaid(s.trades, a) == TotalOpening(openings', a)
    {
      TotalAppend(s.wallets, w, a);
      assert openings'[..|openings|] == openings;
      assert TotalOwned(s.wallets, a) + FeesPaid(s.trades, a) == TotalOpening(openings, a);
    }
  }

  // ----- all runs -----

  /** The openings after one more command. */
  function OpeningsAfter(openings: seq<Opening>, c: Command): seq<Opening> {
    openings
    + if c.OpenAccount? && c.balance.btc <= DECIMAL_MAX && c.balance.usd <= DECIMAL_MAX then [c.balance] else []
  }

  lemma ApplyKeepsSound(s: State, openings: seq<Opening>, c: Command)
    requires Sound(s, openings)
    ensures Sound(Apply(s, c), OpeningsAfter(openings, c))
  {
    var r := Outcome(s, c);
    if !c.OpenAccount? {
      assert OpeningsAfter(openings, c) == openings;
    }
    if r.Ok? {
      match c
      case OpenAccount(b) => OpenAccountKeepsSound(s, openings, b, r.value);
      case Create(user, side, amount, price, sequence) =>
        CreateKeepsSound(s, openings, user, side, amount, price, sequence, r.value);
      case Process(id) => ProcessKeepsSound(s, openings, id, r.value);
      case Cancel(user, id) => CloseKeepsSound(s, openings, id, r.value);
      case Reject(id) =>
        if id < |s.orders| && s.orders[id].status == Queued {
          CloseKeepsSound(s, openings, id, r.value);
        }
    } else {
      assert OpeningsAfter(openings, c) == openings;
    }
  }

  /** Every reachable state is sound. */
  lemma {:induction false} ReachableIsSound(commands: seq<Command>)
    ensures Sound(Run(commands), OpeningsOf(commands))
  {
    if commands != [] {
      var n := |commands| - 1;
      ReachableIsSound(commands[..n]);
      ApplyKeepsSound(Run(commands[..n]), OpeningsOf(commands[..n]), commands[n]);
      assert OpeningsOf(commands) == OpeningsAfter(OpeningsOf(commands[..n]), commands[n]);
    }
  }

  /** Exact reservations: order by order for USD, remaining BTC for SELL orders. */
  lemma ReservationsAreExact(commands: seq<Command>, u: UserId)
    requires u < |Run(commands).wallets|
    ensures var s := Run(commands);
            && s.wallets[u].reservedUsd == Holds(s.orders, u, Usd)
            && s.wallets[u].reservedBtc == Holds(s.orders, u, Btc)
  {
    ReachableIsSound(commands);
    var s := Run(commands);
    assert AccountBalances(s.wallets, s.orders, s.trades, OpeningsOf(commands), u, Usd);
    assert AccountBalances(s.wallets, s.orders, s.trades, OpeningsOf(commands), u, Btc);
  }

  /** No executable cross ever rests. */
  lemma NoExecutableCrossRests(commands: seq<Command>, i: OrderId, j: OrderId)
    requires var orders := Run(commands).orders;
             && i < |orders| && j < |orders|
             && orders[i].side.Buy? && orders[j].side.Sell?
             && (orders[i].status == Open || orders[i].status == PartiallyFilled)
             && (orders[j].status == Open || orders[j].status == PartiallyFilled)
             && orders[i].user != orders[j].user
             && orders[j].price <= orders[i].price
    ensures var orders := Run(commands).orders;
            || orders[i].remaining * orders[j].price < 100_000_000
            || orders[j].remaining * orders[j].price < 100_000_000
  {
    ReachableIsSound(commands);
    assert CrossIsDust(Run(commands).orders[i], Run(commands).orders[j]);
  }

  lemma ProcessAlwaysSucceeds(s: State, openings: seq<Opening>, id: OrderId)
    requires Sound(s, openings)
    requires forall asset :: TotalOpening(openings, asset) <= DECIMAL_MAX
    ensures ProcessOrder(s, id).Ok? <==> id < |s.orders|
  {
    if id < |s.orders| && s.orders[id].status == Queued {
      SelectedMakers(s.orders, id);
      SettleAllSucceeds(s, openings, id, SelectMakers(s.orders, s.orders[id]));
      ProcessIsFinish(s, id);
    }
  }

  /**
   Totality under bounded supply: matching, cancellation and rejection never meet a
   failing guard, and order creation fails on funds exactly when too little is available.
   */
  lemma NothingButFundsFails(commands: seq<Command>, c: Command)
    requires forall asset :: TotalOpening(OpeningsOf(commands), asset) <= DECIMAL_MAX
    ensures var s := Run(commands);
            match c
            case OpenAccount(b) => Outcome(s, c).Ok? <==> b.btc <= DECIMAL_MAX && b.usd <= DECIMAL_MAX
            case Process(id) => Outcome(s, c).Ok? <==> id < |s.orders|
            case Reject(id) => Outcome(s, c).Ok?
            case Cancel(user, id) =>
              Outcome(s, c).Ok? <==> id < |s.orders| && s.orders[id].user == user && IsActive(s.orders[id].status)
            case Create(user, side, amount, price, sequence) =>
              Outcome(s, c).Ok? <==>
                && 0 < amount <= DECIMAL_MAX && 0 < price <= DECIMAL_MAX && 0 < Cost(amount, price) <= DECIMAL_MAX
                && user < |s.wallets| && !IsTaken(s.orders, sequence)
                && (if side.Buy? then Cost(amount, price) <= s.wallets[user].availableUsd
                    else amount <= s.wallets[user].availableBtc)
  {
    ReachableIsSound(commands);
    var s, openings := Run(commands), OpeningsOf(commands);
    match c
    case OpenAccount(b) =>
    case Process(id) => ProcessAlwaysSucceeds(s, openings, id);
    case Reject(id) =>
      if id < |s.orders| && s.orders[id].status == Queued {
        ReleaseFits(s, openings, id);
      }
    case Cancel(user, id) =>
      if id < |s.orders| && IsActive(s.orders[id].status) {
        ReleaseFits(s, openings, id);
        assert OrdersInRange(s.orders, |s.wallets|);
      }
    case Create(user, side, amount, price, sequence) =>
      CreationNeedsFunds(s, openings, user, side, amount, price, sequence);
  }

  /** Under bounded supply the reserved column has room for whatever is available. */
  lemma CreationNeedsFunds(s: State, openings: seq<Opening>, user: UserId, side: Side, amount: int, price: int,
                           sequence: nat)
    requires Sound(s, openings)
    requires forall asset :: TotalOpening(openings, asset) <= DECIMAL_MAX
    ensures CreateOrder(s, user, side, amount, price, sequence).Ok? <==>
              && 0 < amount <= DECIMAL_MAX && 0 < price <= DECIMAL_MAX && 0 < Cost(amount, price) <= DECIMAL_MAX
              && user < |s.wallets| && !IsTaken(s.orders, sequence)
              && (if side.Buy? then Cost(amount, price) <= s.wallets[user].availableUsd
                  else amount <= s.wallets[user].availableBtc)
  {
    if user < |s.wallets| {
      SupplyBoundsAccount(s, openings, user, HeldAsset(side));
      assert WalletInRange(s.wallets[user]);
    }
  }
}
