/**
 What a creation, a cancellation and a rejection write, column by column, and exactly when
 each of them succeeds.
 */
module OrderRequests {
  import opened Outcomes
  import opened Decimals
  import opened Model
  import opened Engine

  /** Only `u`'s wallet changes: `btc` and `usd` units go from its available to its reserved columns. */
  ghost predicate SetAside(wallets: seq<Wallet>, wallets': seq<Wallet>, u: UserId, btc: int, usd: int) {
    && u < |wallets| == |wallets'|
    && (forall v :: 0 <= v < |wallets| && v != u ==> wallets'[v] == wallets[v])
    && wallets'[u].availableBtc == wallets[u].availableBtc - btc
    && wallets'[u].reservedBtc == wallets[u].reservedBtc + btc
    && wallets'[u].availableUsd == wallets[u].availableUsd - usd
    && wallets'[u].reservedUsd == wallets[u].reservedUsd + usd
  }

  /** The order row as it was asked for, its funds, its intent and its event; nothing else. */
  ghost predicate Placed(s: State, s': State, user: UserId, side: Side, amount: int, price: int, sequence: nat) {
    var n := |s.orders|;
    && |s'.orders| == n + 1 && s'.orders[..n] == s.orders
    && s'.orders[n].user == user && s'.orders[n].side == side && s'.orders[n].sequence == sequence
    && s'.orders[n].status == Queued
    && s'.orders[n].price == price && s'.orders[n].original == amount && s'.orders[n].remaining == amount
    && (side.Buy? ==> SetAside(s.wallets, s'.wallets, user, 0, amount * price / 100_000_000))
    && (side.Sell? ==> SetAside(s.wallets, s'.wallets, user, amount, 0))
    && s'.trades == s.trades
    && s'.intents == s.intents + [n]
    && s'.events == s.events + [AccountChanged(OrderCreated, n, [], user)]
  }

  /** Good input, an account with enough available, room in its reserved column, and a new number. */
  ghost predicate CanPlace(s: State, user: UserId, side: Side, amount: int, price: int, sequence: nat) {
    && 0 < amount <= DECIMAL_MAX && 0 < price <= DECIMAL_MAX
    && 0 < amount * price / 100_000_000 <= DECIMAL_MAX
    && user < |s.wallets|
    && (side.Buy? ==>
          && amount * price / 100_000_000 <= s.wallets[user].availableUsd
          && s.wallets[user].reservedUsd + amount * price / 100_000_000 <= DECIMAL_MAX)
    && (side.Sell? ==>
          amount <= s.wallets[user].availableBtc && s.wallets[user].reservedBtc + amount <= DECIMAL_MAX)
    && forall i :: 0 <= i < |s.orders| ==> s.orders[i].sequence != sequence
  }

  lemma CreationPlaces(s: State, user: UserId, side: Side, amount: int, price: int, sequence: nat)
    ensures var r := CreateOrder(s, user, side, amount, price, sequence);
            && (r.Ok? <==> CanPlace(s, user, side, amount, price, sequence))
            && (r.Ok? ==> Placed(s, r.value, user, side, amount, price, sequence))
  {
    if 0 < amount && 0 < price {
      assert Cost(amount, price) == amount * price / 100_000_000;
    }
  }

  /** Only the status of row `id` changes, and what the order still reserved is available to its owner again. */
  ghost predicate Ended(s: State, s': State, id: OrderId, status: Status) {
    && id < |s.orders| == |s'.orders|
    && (forall i :: 0 <= i < |s.orders| && i != id ==> s'.orders[i] == s.orders[i])
    && var o, o' := s.orders[id], s'.orders[id];
       && o'.status == status
       && o'.sequence == o.sequence && o'.user == o.user && o'.side == o.side && o'.price == o.price
       && o'.original == o.original && o'.remaining == o.remaining
       && (o.side.Buy? ==> SetAside(s.wallets, s'.wallets, o.user, 0, -(o.remaining * o.price / 100_000_000)))
       && (o.side.Sell? ==> SetAside(s.wallets, s'.wallets, o.user, -(o.remaining as int), 0))
       && s'.trades == s.trades && s'.intents == s.intents
  }

  /** What order `o` still reserves is there, and the available column has room for it. */
  ghost predicate CanFree(wallets: seq<Wallet>, o: Order) {
    && o.user < |wallets|
    && (o.side.Buy? ==>
          && o.remaining * o.price / 100_000_000 <= wallets[o.user].reservedUsd
          && wallets[o.user].availableUsd + o.remaining * o.price / 100_000_000 <= DECIMAL_MAX)
    && (o.side.Sell? ==>
          && o.remaining <= wallets[o.user].reservedBtc
          && wallets[o.user].availableBtc + o.remaining <= DECIMAL_MAX)
  }

  /** The owner's order, not yet ended. */
  ghost predicate CanCancel(s: State, user: UserId, id: OrderId) {
    && id < |s.orders| && s.orders[id].user == user
    && (s.orders[id].status == Queued || s.orders[id].status == Open || s.orders[id].status == PartiallyFilled)
    && CanFree(s.wallets, s.orders[id])
  }

  lemma CancellationEnds(s: State, user: UserId, id: OrderId)
    ensures var r := CancelOrder(s, user, id);
            && (r.Ok? <==> CanCancel(s, user, id))
            && (r.Ok? ==>
                  && Ended(s, r.value, id, Cancelled)
                  && r.value.events == s.events + [MarketChanged(OrderCancelled, id, []),
                                                   AccountChanged(OrderCancelled, id, [], user)])
  {
    if id < |s.orders| {
      ReleaseFrees(s.wallets, s.orders[id]);
    }
  }

  lemma ReleaseFrees(wallets: seq<Wallet>, o: Order)
    ensures Release(wallets, o).Ok? <==> CanFree(wallets, o)
    ensures var r := Release(wallets, o);
            r.Ok? ==>
              && (o.side.Buy? ==> SetAside(wallets, r.value, o.user, 0, -(o.remaining * o.price / 100_000_000)))
              && (o.side.Sell? ==> SetAside(wallets, r.value, o.user, -(o.remaining as int), 0))
  {
    assert Cost(o.remaining, o.price) == o.remaining * o.price / 100_000_000;
  }

  /** A rejection ends a queued order, and leaves everything as it is when there is none. */
  lemma RejectionEnds(s: State, id: OrderId)
    ensures var r := RejectOrder(s, id);
            if id < |s.orders| && s.orders[id].status == Queued then
              && (r.Ok? <==> CanFree(s.wallets, s.orders[id]))
              && (r.Ok? ==>
                    && Ended(s, r.value, id, Rejected)
                    && r.value.events == s.events + [AccountChanged(OrderRejected, id, [], s.orders[id].user)])
            else r == Ok(s)
  {
    if id < |s.orders| {
      ReleaseFrees(s.wallets, s.orders[id]);
    }
  }
}
