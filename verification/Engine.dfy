/**
 The four transactions as functions on committed states. A transaction that
 throws is an `Err` and leaves the state it started from.
 */
module Engine {
  import opened Outcomes
  import opened Decimals
  import opened Model
  import opened OrderBook

  // ----- one fill -----

  /** What a fill of `q` takes out of a BUY order's reservation. */
  function ReservationDebit(remaining: nat, price: nat, q: nat): int
    requires q <= remaining
  {
    Cost(remaining, price) - Cost(remaining - q, price)
  }

  /** Each side pays its fee in the asset it receives. */
  function FeesOf(takerSide: Side, amount: nat, cost: nat): FeeDetails {
    if takerSide.Buy?
    then FeeDetails(MAKER_FEE_RATE, Cost(cost, MAKER_FEE_RATE), Usd, TAKER_FEE_RATE, Cost(amount, TAKER_FEE_RATE), Btc)
    else FeeDetails(MAKER_FEE_RATE, Cost(amount, MAKER_FEE_RATE), Btc, TAKER_FEE_RATE, Cost(cost, TAKER_FEE_RATE), Usd)
  }

  function FeeIn(fees: FeeDetails, asset: Asset): nat {
    if fees.makerFeeAsset == asset then fees.makerFee else fees.takerFee
  }

  /** The wallet movements of one fill, whichever side the taker is on. */
  datatype Movement = Movement(
    buyer: UserId, seller: UserId, debit: int, cost: nat, amount: nat, btcFee: nat, usdFee: nat)

  predicate BuyerCanMove(w: Wallet, m: Movement) {
    && m.debit <= w.reservedUsd
    && w.availableUsd + (m.debit - m.cost) <= DECIMAL_MAX
    && w.availableBtc + (m.amount - m.btcFee) <= DECIMAL_MAX
  }

  function BuyerMoved(w: Wallet, m: Movement): Wallet {
    w.(reservedUsd := w.reservedUsd - m.debit,
       availableUsd := w.availableUsd + (m.debit - m.cost),
       availableBtc := w.availableBtc + (m.amount - m.btcFee))
  }

  predicate SellerCanMove(w: Wallet, m: Movement) {
    && m.amount <= w.reservedBtc
    && w.availableUsd + (m.cost - m.usdFee) <= DECIMAL_MAX
  }

  function SellerMoved(w: Wallet, m: Movement): Wallet {
    w.(reservedBtc := w.reservedBtc - m.amount,
       availableUsd := w.availableUsd + (m.cost - m.usdFee))
  }

  function Move(wallets: seq<Wallet>, m: Movement): (r: Result<seq<Wallet>>)
    ensures r.Ok? ==> |r.value| == |wallets|
  {
    if |wallets| <= m.buyer || |wallets| <= m.seller then Err(WalletNotFound)
    else if BuyerCanMove(wallets[m.buyer], m) && SellerCanMove(wallets[m.seller], m) && m.buyer != m.seller
    then Ok(wallets[m.buyer := BuyerMoved(wallets[m.buyer], m)][m.seller := SellerMoved(wallets[m.seller], m)])
    else Err(BalanceBounds)
  }

  /** The settlement loop's variables; the taker's own row in `orders` is stale until the end. */
  datatype Progress = Progress(
    wallets: seq<Wallet>, orders: seq<Order>, trades: seq<Trade>,
    rest: nat, matched: nat, tradeIds: seq<TradeId>, affected: seq<UserId>)

  function AddUser(users: seq<UserId>, u: UserId): seq<UserId> {
    if u in users then users else users + [u]
  }

  function TradeOf(takerId: OrderId, taker: Order, makerId: OrderId, maker: Order, q: nat): Trade {
    var buy := if taker.side.Buy? then takerId else makerId;
    var sell := if taker.side.Buy? then makerId else takerId;
    Trade(makerId, takerId, buy, sell, taker.side, maker.price, q, FeesOf(taker.side, q, Cost(q, maker.price)))
  }

  /** `rest` is the taker's live remainder, `q` the fill. */
  function MovementOf(taker: Order, rest: nat, maker: Order, q: nat): Movement
    requires q <= rest && q <= maker.remaining
  {
    var cost := Cost(q, maker.price);
    var fees := FeesOf(taker.side, q, cost);
    if taker.side.Buy?
    then Movement(taker.user, maker.user, ReservationDebit(rest, taker.price, q), cost, q, FeeIn(fees, Btc),
                  FeeIn(fees, Usd))
    else Movement(maker.user, taker.user, ReservationDebit(maker.remaining, maker.price, q), cost, q, FeeIn(fees, Btc),
                  FeeIn(fees, Usd))
  }

  function MakerAfter(maker: Order, q: nat): Order
    requires q <= maker.remaining
  {
    var remaining := maker.remaining - q;
    maker.(remaining := remaining, status := if remaining == 0 then Filled else PartiallyFilled)
  }

  function SettleOne(p: Progress, takerId: OrderId, taker: Order, makerId: OrderId, maker: Order): (r: Result<Progress>)
    requires makerId < |p.orders|
    ensures r.Ok? ==> |r.value.orders| == |p.orders| && r.value.rest == p.rest - FillAmount(maker, p.rest)
  {
    var q := FillAmount(maker, p.rest);
    if q == 0 then Ok(p)
    else
      var wallets :- Move(p.wallets, MovementOf(taker, p.rest, maker, q));
      Ok(Progress(
        wallets, p.orders[makerId := MakerAfter(maker, q)], p.trades + [TradeOf(takerId, taker, makerId, maker, q)],
        p.rest - q, p.matched + q, p.tradeIds + [|p.trades|], AddUser(p.affected, maker.user)))
  }

  /** Settles the listed makers in order, from the rows read when they were selected. */
  function SettleAll(p: Progress, takerId: OrderId, taker: Order, book: seq<Order>,
          makers: seq<OrderId>): (r: Result<Progress>)
    requires Rows(book, makers) && |book| == |p.orders|
    ensures r.Ok? ==> |r.value.orders| == |p.orders|
    decreases |makers|
  {
    if makers == [] then Ok(p)
    else
      var last := |makers| - 1;
      var before :- SettleAll(p, takerId, taker, book, makers[..last]);
      SettleOne(before, takerId, taker, makers[last], book[makers[last]])
  }

  function StartOf(s: State, taker: Order): Progress {
    Progress(s.wallets, s.orders, s.trades, taker.remaining, 0, [], [taker.user])
  }

  function TakerStatus(p: Progress): Status {
    if p.matched == 0 then Open else if p.rest == 0 then Filled else PartiallyFilled
  }

  function AccountEvents(reason: Reason, id: OrderId, tradeIds: seq<TradeId>, users: seq<UserId>): seq<Event> {
    seq(|users|, k requires 0 <= k < |users| => AccountChanged(reason, id, tradeIds, users[k]))
  }

  function Finish(s: State, takerId: OrderId, taker: Order, p: Progress): State
    requires takerId < |p.orders|
  {
    var reason := if p.matched == 0 then OrderOpened else TradeExecuted;
    s.(wallets := p.wallets,
       orders := p.orders[takerId := taker.(remaining := p.rest, status := TakerStatus(p))],
       trades := p.trades,
       events := s.events + [MarketChanged(reason, takerId, p.tradeIds)]
         + AccountEvents(reason, takerId, p.tradeIds, p.affected))
  }

  // ----- the transactions -----

  function ProcessOrder(s: State, id: OrderId): Result<State> {
    if |s.orders| <= id then Err(OrderNotFound)
    else
      var taker := s.orders[id];
      if taker.status != Queued then Ok(s)
      else
        var makers := SelectMakers(s.orders, taker);
        if makers == [] then
          Ok(s.(orders := s.orders[id := taker.(status := Open)],
                events := s.events
                  + [MarketChanged(OrderOpened, id, []), AccountChanged(OrderOpened, id, [], taker.user)]))
        else
          var p :- SettleAll(StartOf(s, taker), id, taker, s.orders, makers);
          Ok(Finish(s, id, taker, p))
  }

  /** What an active order holds of `asset` out of its owner's wallet. */
  function Held(o: Order, asset: Asset): nat {
    if o.side.Buy? then (if asset.Usd? then Cost(o.remaining, o.price) else 0)
    else (if asset.Btc? then o.remaining else 0)
  }

  function HeldAsset(side: Side): Asset {
    if side.Buy? then Usd else Btc
  }

  function Available(w: Wallet, asset: Asset): int {
    if asset.Btc? then w.availableBtc else w.availableUsd
  }

  function Reserved(w: Wallet, asset: Asset): int {
    if asset.Btc? then w.reservedBtc else w.reservedUsd
  }

  /** Moves `x` of `asset` from available to reserved; a negative `x` moves it back. */
  function Shift(w: Wallet, asset: Asset, x: int): Wallet {
    if asset.Btc? then w.(availableBtc := w.availableBtc - x, reservedBtc := w.reservedBtc + x)
    else w.(availableUsd := w.availableUsd - x, reservedUsd := w.reservedUsd + x)
  }

  function Reserve(wallets: seq<Wallet>, u: UserId, asset: Asset, x: nat): (r: Result<seq<Wallet>>)
    requires u < |wallets|
    ensures r.Ok? ==> |r.value| == |wallets|
  {
    var w := wallets[u];
    if x <= Available(w, asset) && Reserved(w, asset) + x <= DECIMAL_MAX
    then Ok(wallets[u := Shift(w, asset, x)])
    else Err(InsufficientFunds)
  }

  function Release(wallets: seq<Wallet>, o: Order): (r: Result<seq<Wallet>>)
    ensures r.Ok? ==> |r.value| == |wallets|
  {
    var asset := HeldAsset(o.side);
    var x: int := Held(o, asset);
    if && o.user < |wallets|
       && x <= Reserved(wallets[o.user], asset) && Available(wallets[o.user], asset) + x <= DECIMAL_MAX
    then Ok(wallets[o.user := Shift(wallets[o.user], asset, -x)])
    else Err(BalanceBounds)
  }

  function CreateOrder(s: State, user: UserId, side: Side, amount: int, price: int, sequence: nat): Result<State> {
    if amount <= 0 || DECIMAL_MAX < amount || price <= 0 || DECIMAL_MAX < price then Err(InvalidInput)
    else if DECIMAL_MAX < Cost(amount, price) then Err(Overflow)
    else if Cost(amount, price) == 0 then Err(ZeroCost)
    else if |s.wallets| <= user then Err(WalletNotFound)
    else
      var o := Order(sequence, user, side, Queued, price, amount, amount);
      var id := |s.orders|;
      var wallets :- Reserve(s.wallets, user, HeldAsset(side), Held(o, HeldAsset(side)));
      if IsTaken(s.orders, sequence) then Err(SequenceTaken)
      else
        Ok(s.(wallets := wallets, orders := s.orders + [o],
              events := s.events + [AccountChanged(OrderCreated, id, [], user)],
              intents := s.intents + [id]))
  }

  function CancelOrder(s: State, user: UserId, id: OrderId): Result<State> {
    if |s.orders| <= id || s.orders[id].user != user then Err(OrderNotFound)
    else if !IsActive(s.orders[id].status) then Err(NotCancellable)
    else if |s.wallets| <= user then Err(WalletNotFound)
    else
      var wallets :- Release(s.wallets, s.orders[id]);
      Ok(s.(wallets := wallets, orders := s.orders[id := s.orders[id].(status := Cancelled)],
            events := s.events + [MarketChanged(OrderCancelled, id, []), AccountChanged(OrderCancelled, id, [], user)]))
  }

  function RejectOrder(s: State, id: OrderId): Result<State> {
    if |s.orders| <= id || s.orders[id].status != Queued then Ok(s)
    else
      var wallets :- Release(s.wallets, s.orders[id]);
      Ok(s.(wallets := wallets, orders := s.orders[id := s.orders[id].(status := Rejected)],
            events := s.events + [AccountChanged(OrderRejected, id, [], s.orders[id].user)]))
  }

  // ----- runs -----

  datatype Opening = Opening(btc: nat, usd: nat)

  datatype Command =
    | OpenAccount(balance: Opening)
    | Create(user: UserId, side: Side, amount: int, price: int, sequence: nat)
    | Process(id: OrderId)
    | Cancel(user: UserId, id: OrderId)
    | Reject(id: OrderId)

  /** A new account starts with its opening balances available; they must fit the columns. */
  function OpenAccountOf(s: State, b: Opening): Result<State> {
    if DECIMAL_MAX < b.btc || DECIMAL_MAX < b.usd then Err(Overflow)
    else Ok(s.(wallets := s.wallets + [Wallet(b.btc, 0, b.usd, 0)]))
  }

  function Outcome(s: State, c: Command): Result<State> {
    match c
    case OpenAccount(b) => OpenAccountOf(s, b)
    case Create(user, side, amount, price, sequence) => CreateOrder(s, user, side, amount, price, sequence)
    case Process(id) => ProcessOrder(s, id)
    case Cancel(user, id) => CancelOrder(s, user, id)
    case Reject(id) => RejectOrder(s, id)
  }

  /** A failed transaction rolls back. */
  function Apply(s: State, c: Command): State {
    var r := Outcome(s, c);
    if r.Ok? then r.value else s
  }

  const EMPTY := State([], [], [], [], [])

  function Run(commands: seq<Command>): State {
    if commands == [] then EMPTY
    else Apply(Run(commands[..|commands| - 1]), commands[|commands| - 1])
  }

  /** The opening balances of the accounts a run opened, in account order. */
  function OpeningsOf(commands: seq<Command>): seq<Opening> {
    if commands == [] then []
    else
      var last := commands[|commands| - 1];
      OpeningsOf(commands[..|commands| - 1])
      + (if last.OpenAccount? && last.balance.btc <= DECIMAL_MAX && last.balance.usd <= DECIMAL_MAX
         then [last.balance] else [])
  }
}
