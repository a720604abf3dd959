/** Order creation and cancellation as step-by-step transactions. */
module OrdersService {
  import opened Outcomes
  import opened Decimals
  import opened Model
  import opened Engine
  import opened Wallets
  import opened OrderRequests

  /** parsePositiveDecimalInput on an already parsed number of units. */
  function PositiveInput(x: int): (r: Result<nat>)
    ensures r.Ok? <==> 0 < x <= DECIMAL_MAX
    ensures r.Ok? ==> r.value == x
    ensures r.Err? ==> r.error == InvalidInput
  {
    if x <= 0 || DECIMAL_MAX < x then Err(InvalidInput) else Ok(x)
  }

  function PositiveOrderCost(amount: nat, price: nat): Result<int> {
    var cost :- MultiplyScaled(amount, price);
    if cost <= 0 then Err(ZeroCost) else Ok(cost)
  }

  /** The transaction of `CreateOrder`; on failure its writes are to be rolled back. */
  method InsertOrder(tx: Database, user: UserId, side: Side, amount: nat, price: nat, sequence: nat)
    returns (r: Result<()>)
    requires 0 < amount <= DECIMAL_MAX && 0 < price <= DECIMAL_MAX && 0 < Cost(amount, price) <= DECIMAL_MAX
    modifies tx
    ensures r.Ok? <==> Engine.CreateOrder(old(tx.Snapshot()), user, side, amount, price, sequence).Ok?
    ensures r.Ok? ==> tx.Snapshot() == Engine.CreateOrder(old(tx.Snapshot()), user, side, amount, price, sequence).value
    ensures r.Err? ==> r.error == Engine.CreateOrder(old(tx.Snapshot()), user, side, amount, price, sequence).error
  {
    if |tx.wallets| <= user {
      return Err(WalletNotFound);
    }
    var reserved :- ReserveFunds(tx, user, side, amount, price);
    var id := |tx.orders|;
    if IsTaken(tx.orders, sequence) {
      return Err(SequenceTaken);
    }
    tx.orders := tx.orders + [Order(sequence, user, side, Queued, price, amount, amount)];
    tx.intents := tx.intents + [id];
    tx.events := tx.events + [AccountChanged(OrderCreated, id, [], user)];
    return Ok(());
  }

  /**
   createOrder: the inputs are checked before the transaction, which rolls back when it
   throws. `sequence` is the number the database draws for the row.
   */
  method CreateOrder(tx: Database, user: UserId, side: Side, amountInput: int, priceInput: int, sequence: nat)
    returns (r: Result<()>)
    modifies tx
    ensures tx.Snapshot() == Apply(old(tx.Snapshot()), Create(user, side, amountInput, priceInput, sequence))
    ensures var e := Engine.CreateOrder(old(tx.Snapshot()), user, side, amountInput, priceInput, sequence);
            if e.Ok? then r.Ok? else r.Err? && r.error == e.error
    ensures r.Ok? <==> CanPlace(old(tx.Snapshot()), user, side, amountInput, priceInput, sequence)
    ensures r.Ok? ==> Placed(old(tx.Snapshot()), tx.Snapshot(), user, side, amountInput, priceInput, sequence)
    ensures r.Err? ==> tx.Snapshot() == old(tx.Snapshot())
  {
    CreationPlaces(tx.Snapshot(), user, side, amountInput, priceInput, sequence);
    var amount :- PositiveInput(amountInput);
    var price :- PositiveInput(priceInput);
    CostIsMultiply(amount, price);
    var cost :- PositiveOrderCost(amount, price);
    var before := tx.Snapshot();
    r := InsertOrder(tx, user, side, amount, price, sequence);
    if r.Err? {
      tx.Restore(before);
    }
  }

  /** The transaction of `CancelOrder`. */
  method CloseOrder(tx: Database, user: UserId, id: OrderId) returns (r: Result<()>)
    requires tx.Valid()
    modifies tx
    ensures r.Ok? <==> Engine.CancelOrder(old(tx.Snapshot()), user, id).Ok?
    ensures r.Ok? ==> tx.Snapshot() == Engine.CancelOrder(old(tx.Snapshot()), user, id).value
    ensures r.Err? ==> r.error == Engine.CancelOrder(old(tx.Snapshot()), user, id).error
  {
    if |tx.orders| <= id || tx.orders[id].user != user {
      return Err(OrderNotFound);
    }
    var order := tx.orders[id];
    if !IsActive(order.status) {
      return Err(NotCancellable);
    }
    tx.orders := tx.orders[id := order.(status := Cancelled)];
    HeldInRange(order);
    var released :- ReleaseFunds(tx, order);
    tx.events := tx.events + [MarketChanged(OrderCancelled, id, []), AccountChanged(OrderCancelled, id, [], user)];
    return Ok(());
  }

  lemma HeldInRange(o: Order)
    requires OrderInRange(o)
    ensures o.remaining <= DECIMAL_MAX && Cost(o.remaining, o.price) <= DECIMAL_MAX
  {
  }

  /** cancelOrder. */
  method CancelOrder(tx: Database, user: UserId, id: OrderId) returns (r: Result<()>)
    requires tx.Valid()
    modifies tx
    ensures tx.Snapshot() == Apply(old(tx.Snapshot()), Cancel(user, id))
    ensures var e := Engine.CancelOrder(old(tx.Snapshot()), user, id);
            if e.Ok? then r.Ok? else r.Err? && r.error == e.error
    ensures r.Ok? <==> CanCancel(old(tx.Snapshot()), user, id)
    ensures r.Ok? ==>
              && Ended(old(tx.Snapshot()), tx.Snapshot(), id, Cancelled)
              && tx.events == old(tx.events) + [MarketChanged(OrderCancelled, id, []),
                                                AccountChanged(OrderCancelled, id, [], user)]
    ensures r.Err? ==> tx.Snapshot() == old(tx.Snapshot())
  {
    CancellationEnds(tx.Snapshot(), user, id);
    var before := tx.Snapshot();
    r := CloseOrder(tx, user, id);
    if r.Err? {
      tx.Restore(before);
    }
  }
}
