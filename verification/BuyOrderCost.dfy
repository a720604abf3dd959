/** What a BUY order costs over its whole life, however it is split into fills. */
module BuyOrderCost {
  import opened Decimals
  import opened Model
  import opened Engine
  import opened Ledger
  import opened Fills
  import opened Market
  import opened Reachability

  /** USD paid by the fills of BUY order `i`. */
  function Paid(trades: seq<Trade>, i: OrderId): nat {
    if trades == [] then 0
    else
      var t := trades[|trades| - 1];
      Paid(trades[..|trades| - 1], i) + if t.buy == i then Cost(t.amount, t.price) else 0
  }

  /** The reservation debit of trade `k` for its buyer, from the remainder before it. */
  ghost function DebitOf(trades: seq<Trade>, o: Order, i: OrderId, k: nat): int
    requires k < |trades| && Executed(trades[..k], i) + trades[k].amount <= o.original
  {
    ReservationDebit(o.original - Executed(trades[..k], i), o.price, trades[k].amount)
  }

  ghost predicate NeverOverfills(trades: seq<Trade>, o: Order, i: OrderId) {
    forall k :: 0 <= k < |trades| && trades[k].buy == i ==> Executed(trades[..k], i) + trades[k].amount <= o.original
  }

  ghost function Debits(trades: seq<Trade>, o: Order, i: OrderId, n: nat): int
    requires n <= |trades| && NeverOverfills(trades, o, i)
  {
    if n == 0 then 0
    else Debits(trades, o, i, n - 1) + if trades[n - 1].buy == i then DebitOf(trades, o, i, n - 1) else 0
  }

  ghost predicate BuysOnlyAsBuyer(trades: seq<Trade>, i: OrderId) {
    forall k :: 0 <= k < |trades| ==> (trades[k].buy == i <==> trades[k].maker == i || trades[k].taker == i)
  }

  /** The debits telescope. */
  lemma {:induction false} DebitsTelescope(trades: seq<Trade>, o: Order, i: OrderId, n: nat)
    requires n <= |trades| && NeverOverfills(trades, o, i) && BuysOnlyAsBuyer(trades, i)
    ensures Executed(trades[..n], i) <= o.original
    ensures Debits(trades, o, i, n) == Cost(o.original, o.price) - Cost(o.original - Executed(trades[..n], i), o.price)
  {
    if n > 0 {
      DebitsTelescope(trades, o, i, n - 1);
      assert trades[..n][..n - 1] == trades[..n - 1];
    }
  }

  lemma {:induction false} DebitsCoverPayments(trades: seq<Trade>, o: Order, i: OrderId, n: nat)
    requires n <= |trades| && NeverOverfills(trades, o, i)
    requires forall k :: 0 <= k < |trades| && trades[k].buy == i ==> trades[k].price <= o.price
    ensures Paid(trades[..n], i) <= Debits(trades, o, i, n)
  {
    if n > 0 {
      DebitsCoverPayments(trades, o, i, n - 1);
      assert trades[..n][..n - 1] == trades[..n - 1];
      if trades[n - 1].buy == i {
        DebitCoversCost(o.original - Executed(trades[..n - 1], i), o.price, trades[n - 1].amount, trades[n - 1].price);
      }
    }
  }

  lemma SurplusOf(trades: seq<Trade>, o: Order, i: OrderId, k: nat)
    requires k < |trades| && Executed(trades[..k], i) + trades[k].amount <= o.original && trades[k].price <= o.price
    ensures var surplus := DebitOf(trades, o, i, k) - Cost(trades[k].amount, trades[k].price);
            0 <= surplus && (trades[k].price == o.price ==> surplus <= 1)
  {
    DebitCoversCost(o.original - Executed(trades[..k], i), o.price, trades[k].amount, trades[k].price);
  }

  lemma {:induction false} ExecutedGrows(trades: seq<Trade>, i: OrderId, m: nat)
    requires m <= |trades|
    ensures Executed(trades[..m], i) <= Executed(trades, i)
    ensures m < |trades| && (trades[m].maker == i || trades[m].taker == i) ==>
              Executed(trades[..m], i) + trades[m].amount <= Executed(trades, i)
  {
    var n := |trades|;
    if m < n {
      ExecutedGrows(trades[..n - 1], i, m);
      assert trades[..n - 1][..m] == trades[..m];
    } else {
      assert trades[..m] == trades;
    }
  }

  lemma TradesOfBuyOrder(s: State, openings: seq<Opening>, i: OrderId)
    requires Sound(s, openings) && i < |s.orders| && s.orders[i].side.Buy?
    ensures NeverOverfills(s.trades, s.orders[i], i) && BuysOnlyAsBuyer(s.trades, i)
    ensures forall k :: 0 <= k < |s.trades| && s.trades[k].buy == i ==> s.trades[k].price <= s.orders[i].price
    ensures Executed(s.trades, i) == s.orders[i].original - s.orders[i].remaining
  {
    forall k | 0 <= k < |s.trades|
      ensures s.trades[k].buy == i ==> s.trades[k].price <= s.orders[i].price
      ensures s.trades[k].buy == i ==> Executed(s.trades[..k], i) + s.trades[k].amount <= s.orders[i].original
      ensures s.trades[k].buy == i <==> s.trades[k].maker == i || s.trades[k].taker == i
    {
      assert TradeValid(s.trades[k], s.orders);
      ExecutedGrows(s.trades, i, k);
    }
  }

  /**
   In the trade log of any run the debits of a BUY order add up to ⌊original·limit⌋ − ⌊remaining·limit⌋,
   and the total paid never exceeds them, nor so the original reservation.
   */
  lemma LoggedCost(commands: seq<Command>, i: OrderId)
    requires i < |Run(commands).orders| && Run(commands).orders[i].side.Buy?
    ensures var s := Run(commands);
            var o := s.orders[i];
            && NeverOverfills(s.trades, o, i)
            && Debits(s.trades, o, i, |s.trades|) == Cost(o.original, o.price) - Cost(o.remaining, o.price)
            && Paid(s.trades, i) <= Debits(s.trades, o, i, |s.trades|) <= Cost(o.original, o.price)
  {
    ReachableIsSound(commands);
    LifetimeCostOfSound(Run(commands), OpeningsOf(commands), i);
  }

  /** The same from the order's trades alone. */
  lemma CostOfTrades(trades: seq<Trade>, o: Order, i: OrderId, left: nat)
    requires NeverOverfills(trades, o, i) && BuysOnlyAsBuyer(trades, i)
    requires forall k :: 0 <= k < |trades| && trades[k].buy == i ==> trades[k].price <= o.price
    requires Executed(trades, i) == o.original - left
    ensures Debits(trades, o, i, |trades|) == Cost(o.original, o.price) - Cost(left, o.price)
    ensures Paid(trades, i) <= Debits(trades, o, i, |trades|)
  {
    DebitsTelescope(trades, o, i, |trades|);
    DebitsCoverPayments(trades, o, i, |trades|);
    assert trades[..|trades|] == trades;
  }

  lemma LifetimeCostOfSound(s: State, openings: seq<Opening>, i: OrderId)
    requires Sound(s, openings) && i < |s.orders| && s.orders[i].side.Buy?
    ensures var o := s.orders[i];
            && NeverOverfills(s.trades, o, i)
            && Debits(s.trades, o, i, |s.trades|) == Cost(o.original, o.price) - Cost(o.remaining, o.price)
            && Paid(s.trades, i) <= Debits(s.trades, o, i, |s.trades|) <= Cost(o.original, o.price)
  {
    TradesOfBuyOrder(s, openings, i);
    CostOfTrades(s.trades, s.orders[i], i, s.orders[i].remaining);
  }

  lemma SurplusesOfSound(s: State, openings: seq<Opening>, i: OrderId, k: nat)
    requires Sound(s, openings) && i < |s.orders| && s.orders[i].side.Buy?
    requires k < |s.trades| && s.trades[k].buy == i
    ensures Executed(s.trades[..k], i) + s.trades[k].amount <= s.orders[i].original
    ensures var surplus := DebitOf(s.trades, s.orders[i], i, k) - Cost(s.trades[k].amount, s.trades[k].price);
            0 <= surplus && (s.trades[k].price == s.orders[i].price ==> surplus <= 1)
  {
    TradesOfBuyOrder(s, openings, i);
    SurplusOf(s.trades, s.orders[i], i, k);
  }
}
