/**
 The tables the engine works on. Amounts, prices and balances are integers in
 units of 10^-8. Accounts, orders and trades are rows of append-only tables, so
 each is named by its row number, in commit order. An order's `sequence` is a number
 of its own, drawn when its row is inserted.
 */
module Model {
  import opened Decimals

  type UserId = nat
  type OrderId = nat
  type TradeId = nat

  datatype Side = Buy | Sell
  datatype Asset = Btc | Usd
  datatype Status = Queued | Open | PartiallyFilled | Filled | Cancelled | Rejected

  datatype Wallet = Wallet(availableBtc: int, reservedBtc: int, availableUsd: int, reservedUsd: int)

  datatype Order = Order(
    sequence: nat, user: UserId, side: Side, status: Status, price: nat, original: nat, remaining: nat)

  datatype FeeDetails = FeeDetails(
    makerFeeRate: nat, makerFee: nat, makerFeeAsset: Asset,
    takerFeeRate: nat, takerFee: nat, takerFeeAsset: Asset)

  datatype Trade = Trade(
    maker: OrderId, taker: OrderId, buy: OrderId, sell: OrderId,
    takerSide: Side, price: nat, amount: nat, fees: FeeDetails)

  datatype Reason = OrderCreated | OrderOpened | OrderCancelled | OrderRejected | TradeExecuted

  datatype Event =
    | MarketChanged(reason: Reason, order: OrderId, tradeIds: seq<TradeId>)
    | AccountChanged(reason: Reason, order: OrderId, tradeIds: seq<TradeId>, user: UserId)

  /** A committed database state: five tables, `intents` being the matching outbox. */
  datatype State = State(
    wallets: seq<Wallet>, orders: seq<Order>, trades: seq<Trade>,
    events: seq<Event>, intents: seq<OrderId>)

  // 0.005 and 0.003 in units.
  const MAKER_FEE_RATE: nat := 500_000
  const TAKER_FEE_RATE: nat := 300_000

  predicate IsActive(status: Status) {
    status == Queued || status == Open || status == PartiallyFilled
  }

  predicate IsResting(status: Status) {
    status == Open || status == PartiallyFilled
  }

  function Min(a: nat, b: nat): nat {
    if a < b then a else b
  }

  predicate InRange(x: int) {
    0 <= x <= DECIMAL_MAX
  }

  ghost predicate WalletInRange(w: Wallet) {
    InRange(w.availableBtc) && InRange(w.reservedBtc) && InRange(w.availableUsd) && InRange(w.reservedUsd)
  }

  /** The column constraints of `orders`, and the input check made before insertion. */
  predicate OrderInRange(o: Order) {
    && 0 < o.original <= DECIMAL_MAX
    && 0 < o.price <= DECIMAL_MAX
    && o.remaining <= o.original
    && 0 < Cost(o.original, o.price) <= DECIMAL_MAX
  }

  /** orders_status_remaining_amount_consistency. */
  ghost predicate StatusConsistent(o: Order) {
    match o.status
    case Queued => o.remaining == o.original
    case Open => o.remaining == o.original
    case PartiallyFilled => 0 < o.remaining < o.original
    case Filled => o.remaining == 0
    case Cancelled => 0 < o.remaining <= o.original
    case Rejected => o.remaining == o.original
  }

  /** Does some order have this number? */
  predicate IsTaken(orders: seq<Order>, sequence: nat) {
    exists i :: 0 <= i < |orders| && orders[i].sequence == sequence
  }

  /** orders_sequence_key. */
  ghost predicate Sequenced(orders: seq<Order>) {
    forall i, j :: 0 <= i < j < |orders| ==> orders[i].sequence != orders[j].sequence
  }

  /** Every stored row satisfies the constraints of its own table. */
  ghost predicate WellFormed(wallets: seq<Wallet>, orders: seq<Order>) {
    && (forall u :: 0 <= u < |wallets| ==> WalletInRange(wallets[u]))
    && (forall i :: 0 <= i < |orders| ==> OrderInRange(orders[i]) && StatusConsistent(orders[i]))
    && (forall i :: 0 <= i < |orders| ==> orders[i].user < |wallets|)
    && Sequenced(orders)
  }
}
