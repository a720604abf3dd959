/**
 What BUY orders cost, measured on their owners' wallets: the reserved USD that goes, turn
 by turn of the settlement loop, whether the order is the taker or a maker.
 */
module WalletDebits {
  import opened Outcomes
  import opened Decimals
  import opened Model
  import opened OrderBook
  import opened Engine
  import opened Ledger
  import opened Fills
  import opened Settlement
  import opened Market
  import opened Reachability
  import opened BuyOrderCost
  import EveryRun
  import Lifecycle

  /** The settlement of queued order `id` after its first `n` makers. */
  function Turn(s: State, id: OrderId, n: nat): Result<Progress>
    requires id < |s.orders| && n <= |SelectMakers(s.orders, s.orders[id])|
  {
    SettleAll(StartOf(s, s.orders[id]), id, s.orders[id], s.orders, SelectMakers(s.orders, s.orders[id])[..n])
  }

  function ReservedUsd(p: Progress, u: UserId): int {
    if u < |p.wallets| then p.wallets[u].reservedUsd else 0
  }

  function AvailableUsd(p: Progress, u: UserId): int {
    if u < |p.wallets| then p.wallets[u].availableUsd else 0
  }

  /** What a turn takes out of the reserved USD of `u`, if order `i` is the buyer in it. */
  function TurnDebit(before: Progress, after: Progress, i: OrderId, u: UserId): int {
    if |before.trades| < |after.trades| && after.trades[|before.trades|].buy == i
    then ReservedUsd(before, u) - ReservedUsd(after, u) else 0
  }

  /** What the first `n` turns take out of the wallet of order `i`'s owner for that order. */
  function SettlementDebits(s: State, id: OrderId, n: nat, i: OrderId): int
    requires id < |s.orders| && i < |s.orders| && n <= |SelectMakers(s.orders, s.orders[id])|
  {
    if n == 0 then 0
    else
      var before, after := Turn(s, id, n - 1), Turn(s, id, n);
      SettlementDebits(s, id, n - 1, i)
      + if before.Ok? && after.Ok? then TurnDebit(before.value, after.value, i, s.orders[i].user) else 0
  }

  predicate SettlesOrder(s: State, c: Command) {
    c.Process? && c.id < |s.orders| && s.orders[c.id].status == Queued && ProcessOrder(s, c.id).Ok?
  }

  /** What a run takes out of the wallet of order `i`'s owner for that order. */
  function Debited(commands: seq<Command>, i: OrderId): int {
    if commands == [] then 0
    else
      var n := |commands| - 1;
      var s, c := Run(commands[..n]), commands[n];
      Debited(commands[..n], i)
      + if SettlesOrder(s, c) && i < |s.orders|
        then SettlementDebits(s, c.id, |SelectMakers(s.orders, s.orders[c.id])|, i) else 0
  }

  // ----- one turn -----

  lemma NoTurnYet(s: State, id: OrderId)
    requires id < |s.orders|
    ensures Turn(s, id, 0) == Ok(StartOf(s, s.orders[id]))
  {
    assert SelectMakers(s.orders, s.orders[id])[..0] == [];
  }

  ghost predicate Settling(s: State, openings: seq<Opening>, id: OrderId, n: nat) {
    && Sound(s, openings)
    && id < |s.orders| && s.orders[id].status == Queued
    && n <= |SelectMakers(s.orders, s.orders[id])| && Turn(s, id, n).Ok?
  }

  lemma TurnIsSettled(s: State, openings: seq<Opening>, id: OrderId, n: nat)
    requires Settling(s, openings, id, n)
    ensures Settled(s, openings, id, SelectMakers(s.orders, s.orders[id])[..n], Turn(s, id, n).value)
  {
    SelectedMakers(s.orders, id);
    PrefixMakers(s.orders, id, SelectMakers(s.orders, s.orders[id]), n);
    SettleAllKeeps(s, openings, id, SelectMakers(s.orders, s.orders[id])[..n], Turn(s, id, n).value);
  }

  lemma TurnIsOneMore(s: State, openings: seq<Opening>, id: OrderId, n: nat)
    requires Settling(s, openings, id, n) && n > 0
    ensures Settling(s, openings, id, n - 1)
    ensures var m, before := SelectMakers(s.orders, s.orders[id])[n - 1], Turn(s, id, n - 1).value;
            && m < |s.orders| == |before.orders|
            && SettleOne(before, id, s.orders[id], m, s.orders[m]) == Turn(s, id, n)
  {
    assert SelectMakers(s.orders, s.orders[id])[..n][..n - 1] == SelectMakers(s.orders, s.orders[id])[..n - 1];
  }

  /** A turn goes from one progress to the next by settling one maker's unwritten row. */
  lemma TurnStep(s: State, openings: seq<Opening>, id: OrderId, n: nat)
    requires Settling(s, openings, id, n) && n > 0
    ensures Settling(s, openings, id, n - 1)
    ensures var m, before := SelectMakers(s.orders, s.orders[id])[n - 1], Turn(s, id, n - 1).value;
            && m != id && m < |s.orders|
            && id < |before.orders| && m < |before.orders| && before.orders[m] == s.orders[m]
            && IsCandidate(s.orders[id], s.orders[m])
            && Books(before.wallets, Live(before, id, s.orders[id]), before.trades, openings)
            && SettleOne(before, id, s.orders[id], m, s.orders[m]) == Turn(s, id, n)
  {
    var makers := SelectMakers(s.orders, s.orders[id]);
    TurnIsOneMore(s, openings, id, n);
    SelectedMakers(s.orders, id);
    TurnIsSettled(s, openings, id, n - 1);
    RowAheadUntouched(s.orders, Turn(s, id, n - 1).value.orders, id, makers, n, s.orders[id].remaining);
  }

  /** After `n - 1` turns the next maker's row is as it was selected. */
  lemma RowAheadUntouched(orders: seq<Order>, before: seq<Order>, id: OrderId, makers: seq<OrderId>, n: nat,
          amount: nat)
    requires MakersFor(orders, id, makers) && 0 < n <= |makers| && Rows(orders, makers[..n - 1])
    requires RowsSettled(orders, before, makers[..n - 1], amount)
    ensures var m := makers[n - 1];
            && m != id && m < |orders| == |before| && before[m] == orders[m] && IsCandidate(orders[id], orders[m])
  {
    assert makers[n - 1] !in makers[..n - 1];
  }

  lemma MoveDebits(wallets: seq<Wallet>, m: Movement, wallets': seq<Wallet>)
    requires Move(wallets, m) == Ok(wallets')
    ensures m.buyer < |wallets| == |wallets'|
    ensures wallets[m.buyer].reservedUsd - wallets'[m.buyer].reservedUsd == m.debit
    ensures wallets'[m.buyer].availableUsd - wallets[m.buyer].availableUsd == m.debit - m.cost
  {
  }

  /** The debit of a fill, from the row's live remainder and from the trade log. */
  lemma LoggedDebit(orders: seq<Order>, trades: seq<Trade>, t: Trade)
    requires Quantities(orders, trades) && t.buy < |orders| && t.amount <= orders[t.buy].remaining
    ensures (trades + [t])[..|trades|] == trades
    ensures Executed(trades, t.buy) + t.amount <= orders[t.buy].original
    ensures ReservationDebit(orders[t.buy].remaining, orders[t.buy].price, t.amount)
         == DebitOf(trades + [t], orders[t.buy], t.buy, |trades|)
  {
    assert (trades + [t])[..|trades|] == trades;
    assert orders[t.buy].original - orders[t.buy].remaining == Executed(trades, t.buy);
  }

  /** What a fill takes out of its buyer's wallet is the debit the trade log shows for it. */
  lemma FillDebit(wallets: seq<Wallet>, orders: seq<Order>, trades: seq<Trade>, openings: seq<Opening>, t: Trade,
          later: seq<Order>, wallets': seq<Wallet>)
    requires FillStep(wallets, orders, trades, openings, t, later)
    requires Move(wallets, MovementFor(t, orders)) == Ok(wallets')
    ensures var u := orders[t.buy].user;
            && u < |wallets| == |wallets'|
            && Executed(trades, t.buy) + t.amount <= orders[t.buy].original
            && (trades + [t])[..|trades|] == trades
            && var debit := DebitOf(trades + [t], orders[t.buy], t.buy, |trades|);
               && wallets[u].reservedUsd - wallets'[u].reservedUsd == debit
               && wallets'[u].availableUsd - wallets[u].availableUsd == debit - Cost(t.amount, t.price)
  {
    MoveDebits(wallets, MovementFor(t, orders), wallets');
    LoggedDebit(orders, trades, t);
  }

  /** A turn that fills: its trade, and the live rows before and after it. */
  lemma TurnFill(s: State, openings: seq<Opening>, id: OrderId, n: nat)
    returns (t: Trade, live: seq<Order>, later: seq<Order>)
    requires Settling(s, openings, id, n) && n > 0 && Turn(s, id, n - 1).Ok?
    requires |Turn(s, id, n - 1).value.trades| < |Turn(s, id, n).value.trades|
    ensures var before, after := Turn(s, id, n - 1).value, Turn(s, id, n).value;
            && id < |before.orders| && id < |after.orders|
            && live == Live(before, id, s.orders[id]) && later == Live(after, id, s.orders[id])
            && FillStep(before.wallets, live, before.trades, openings, t, later)
            && Move(before.wallets, MovementFor(t, live)) == Ok(after.wallets)
            && after.trades == before.trades + [t]
  {
    TurnStep(s, openings, id, n);
    var before, after := Turn(s, id, n - 1).value, Turn(s, id, n).value;
    var m := SelectMakers(s.orders, s.orders[id])[n - 1];
    t, live, later := FillOfTurn(before, after, openings, id, s.orders[id], m, s.orders[m]);
  }

  lemma FillOfTurn(before: Progress, after: Progress, openings: seq<Opening>, id: OrderId, taker: Order, m: OrderId,
          maker: Order)
    returns (t: Trade, live: seq<Order>, later: seq<Order>)
    requires id < |before.orders| && m < |before.orders| && m != id && before.orders[m] == maker
    requires taker.status == Queued && IsCandidate(taker, maker)
    requires Books(before.wallets, Live(before, id, taker), before.trades, openings)
    requires SettleOne(before, id, taker, m, maker) == Ok(after) && |before.trades| < |after.trades|
    ensures |after.orders| == |before.orders|
    ensures live == Live(before, id, taker) && later == Live(after, id, taker)
    ensures FillStep(before.wallets, live, before.trades, openings, t, later)
    ensures Move(before.wallets, MovementFor(t, live)) == Ok(after.wallets)
    ensures after.trades == before.trades + [t]
  {
    t, live, later := LoopFillStep(before, openings, id, taker, m, maker);
    TurnOfFill(before, id, taker, m, maker, after);
    assert later == Live(after, id, taker);
  }

  /** A turn without a trade changes neither wallets nor the live rows. */
  lemma IdleTurn(s: State, openings: seq<Opening>, id: OrderId, n: nat)
    requires Settling(s, openings, id, n) && n > 0 && Turn(s, id, n - 1).Ok?
    requires |Turn(s, id, n).value.trades| <= |Turn(s, id, n - 1).value.trades|
    ensures Turn(s, id, n) == Turn(s, id, n - 1)
  {
    TurnStep(s, openings, id, n);
  }

  lemma TurnGrows(s: State, openings: seq<Opening>, id: OrderId, n: nat)
    requires Settling(s, openings, id, n) && n > 0
    ensures Settling(s, openings, id, n - 1)
    ensures var trades, later := Turn(s, id, n - 1).value.trades, Turn(s, id, n).value.trades;
            trades <= later && |later| <= |trades| + 1
  {
    TurnStep(s, openings, id, n);
  }

  // ----- every fill of every run -----

  /** The turn that made trade `k`. */
  lemma {:induction false} TurnOfTrade(s: State, openings: seq<Opening>, id: OrderId, n: nat, k: nat) returns (j: nat)
    requires Settling(s, openings, id, n) && |s.trades| <= k < |Turn(s, id, n).value.trades|
    ensures 0 < j <= n && Settling(s, openings, id, j) && Settling(s, openings, id, j - 1)
    ensures |Turn(s, id, j - 1).value.trades| == k && |Turn(s, id, j).value.trades| == k + 1
    ensures Turn(s, id, j).value.trades <= Turn(s, id, n).value.trades
    decreases n
  {
    NoTurnYet(s, id);
    if n == 0 {
      assert false;
    } else {
      TurnGrows(s, openings, id, n);
      if k == |Turn(s, id, n - 1).value.trades| {
        j := n;
      } else {
        j := TurnOfTrade(s, openings, id, n - 1, k);
      }
    }
  }

  lemma LastTurn(s: State, openings: seq<Opening>, id: OrderId, s': State)
    requires Sound(s, openings) && id < |s.orders| && s.orders[id].status == Queued && ProcessOrder(s, id) == Ok(s')
    ensures var n := |SelectMakers(s.orders, s.orders[id])|;
            && Settling(s, openings, id, n)
            && |Turn(s, id, n).value.orders| == |s.orders|
            && s' == Finish(s, id, s.orders[id], Turn(s, id, n).value)
  {
    var makers := SelectMakers(s.orders, s.orders[id]);
    assert makers[..|makers|] == makers;
    ProcessIsFinish(s, id);
    TurnIsSettled(s, openings, id, |makers|);
  }

  /** A debit depends on the order's terms and on the log up to its trade. */
  lemma SameDebit(trades: seq<Trade>, trades': seq<Trade>, o: Order, o': Order, i: OrderId, k: nat)
    requires k < |trades| && trades <= trades' && SameTerms(o, o')
    requires Executed(trades[..k], i) + trades[k].amount <= o.original
    ensures trades'[k] == trades[k] && Executed(trades'[..k], i) + trades'[k].amount <= o'.original
    ensures DebitOf(trades', o', i, k) == DebitOf(trades, o, i, k)
  {
    assert trades'[..k] == trades[..k];
  }

  /** The live rows have the terms of the stored ones. */
  lemma LiveTerms(s: State, openings: seq<Opening>, id: OrderId, n: nat, live: seq<Order>, i: OrderId)
    requires Settling(s, openings, id, n) && id < |Turn(s, id, n).value.orders|
    requires live == Live(Turn(s, id, n).value, id, s.orders[id]) && i < |live|
    ensures |live| == |s.orders| && SameTerms(s.orders[i], live[i])
  {
    TurnIsSettled(s, openings, id, n);
    SettledTerms(s.orders, Turn(s, id, n).value.orders, SelectMakers(s.orders, s.orders[id])[..n],
                 s.orders[id].remaining, i);
  }

  lemma SettledTerms(orders: seq<Order>, later: seq<Order>, makers: seq<OrderId>, amount: nat, i: OrderId)
    requires Rows(orders, makers) && RowsSettled(orders, later, makers, amount) && i < |orders|
    ensures SameTerms(orders[i], later[i])
  {
    if i in makers {
      var k :| 0 <= k < |makers| && makers[k] == i;
      assert later[makers[k]] == MakerSettled(orders[makers[k]], FillAt(orders, makers, amount, k));
    }
  }

  /** A turn that fills takes the logged debit out of its buyer's wallet. */
  lemma DebitOfTurn(s: State, openings: seq<Opening>, id: OrderId, n: nat) returns (t: Trade, o: Order)
    requires Settling(s, openings, id, n) && n > 0 && Turn(s, id, n - 1).Ok?
    requires |Turn(s, id, n - 1).value.trades| < |Turn(s, id, n).value.trades|
    ensures var before, after := Turn(s, id, n - 1).value, Turn(s, id, n).value;
            && after.trades == before.trades + [t] && after.trades[..|before.trades|] == before.trades
            && t.buy < |s.orders| && SameTerms(s.orders[t.buy], o)
            && Executed(before.trades, t.buy) + t.amount <= o.original
            && var debit := DebitOf(after.trades, o, t.buy, |before.trades|);
               && ReservedUsd(before, o.user) - ReservedUsd(after, o.user) == debit
               && AvailableUsd(after, o.user) - AvailableUsd(before, o.user) == debit - Cost(t.amount, t.price)
  {
    var live, later;
    t, live, later := TurnFill(s, openings, id, n);
    o := live[t.buy];
    var before, after := Turn(s, id, n - 1).value, Turn(s, id, n).value;
    FillDebit(before.wallets, live, before.trades, openings, t, later, after.wallets);
    LiveTerms(s, openings, id, n - 1, live, t.buy);
  }

  /** Trade `k` of `s'` moved `debit` out of its buyer's reservation and what it did not cost back to available. */
  ghost predicate DebitedFor(before: Progress, after: Progress, s': State, k: nat) {
    && k < |s'.trades| && s'.trades[k].buy < |s'.orders|
    && var t := s'.trades[k];
       var b := s'.orders[t.buy];
       && |before.trades| == k && |after.trades| == k + 1 && after.trades <= s'.trades
       && Executed(s'.trades[..k], t.buy) + t.amount <= b.original
       && var debit := DebitOf(s'.trades, b, t.buy, k);
          && ReservedUsd(before, b.user) - ReservedUsd(after, b.user) == debit
          && AvailableUsd(after, b.user) - AvailableUsd(before, b.user) == debit - Cost(t.amount, t.price)
  }

  /**
   Every fill of every run: the turn that makes trade `k` takes exactly the debit the trade log
   shows out of the buyer's reservation, whichever side the buyer is on. What the fill did not
   cost comes back to available: never less than nothing, and at the limit price at most a unit.
   */
  lemma EveryFillDebitsItsBuyer(commands: seq<Command>, id: OrderId, s': State, k: nat) returns (n: nat)
    requires EveryRun.Processes(commands, id, s') && |Run(commands).trades| <= k < |s'.trades|
    ensures var s := Run(commands);
            && 0 < n <= |SelectMakers(s.orders, s.orders[id])| && Turn(s, id, n - 1).Ok? && Turn(s, id, n).Ok?
            && DebitedFor(Turn(s, id, n - 1).value, Turn(s, id, n).value, s', k)
    ensures var t := s'.trades[k];
            var b := s'.orders[t.buy];
            var refund := DebitOf(s'.trades, b, t.buy, k) - Cost(t.amount, t.price);
            0 <= refund && (t.price == b.price ==> refund <= 1)
  {
    ReachableIsSound(commands);
    n := FillDebitsItsBuyer(Run(commands), OpeningsOf(commands), id, s', k);
    ProcessKeepsSound(Run(commands), OpeningsOf(commands), id, s');
    assert TradeValid(s'.trades[k], s'.orders);
    SurplusesOfSound(s', OpeningsOf(commands), s'.trades[k].buy, k);
  }

  lemma FillDebitsItsBuyer(s: State, openings: seq<Opening>, id: OrderId, s': State, k: nat) returns (n: nat)
    requires Sound(s, openings) && id < |s.orders| && s.orders[id].status == Queued && ProcessOrder(s, id) == Ok(s')
    requires |s.trades| <= k < |s'.trades|
    ensures 0 < n <= |SelectMakers(s.orders, s.orders[id])| && Turn(s, id, n - 1).Ok? && Turn(s, id, n).Ok?
    ensures DebitedFor(Turn(s, id, n - 1).value, Turn(s, id, n).value, s', k)
  {
    LastTurn(s, openings, id, s');
    n := TurnOfTrade(s, openings, id, |SelectMakers(s.orders, s.orders[id])|, k);
    var t, o := DebitOfTurn(s, openings, id, n);
    OthersShrink(s, openings, id, s', t.buy);
    SameDebit(Turn(s, id, n).value.trades, s'.trades, o, s'.orders[t.buy], t.buy, k);
  }

  // ----- whole lives -----

  /** What the row of BUY order `i` still reserves, in the middle of a settlement. */
  function LiveCost(s: State, id: OrderId, p: Progress, i: OrderId): int
    requires id < |s.orders| && i < |s.orders|
  {
    if id < |p.orders| && i < |p.orders| then Cost(Live(p, id, s.orders[id])[i].remaining, s.orders[i].price) else 0
  }

  lemma DebitIsFallOfLiveCost(s: State, openings: seq<Opening>, id: OrderId, n: nat, i: OrderId)
    requires Settling(s, openings, id, n) && n > 0 && Turn(s, id, n - 1).Ok?
    requires i < |s.orders| && s.orders[i].side.Buy?
    ensures var before, after := Turn(s, id, n - 1).value, Turn(s, id, n).value;
            TurnDebit(before, after, i, s.orders[i].user) == LiveCost(s, id, before, i) - LiveCost(s, id, after, i)
  {
    var before, after := Turn(s, id, n - 1).value, Turn(s, id, n).value;
    if |after.trades| <= |before.trades| {
      IdleTurn(s, openings, id, n);
    } else {
      var t, live, later := TurnFill(s, openings, id, n);
      LiveTerms(s, openings, id, n - 1, live, i);
      DebitOfFill(before, after, live, t, later, i);
    }
  }

  lemma DebitOfFill(before: Progress, after: Progress, live: seq<Order>, t: Trade, later: seq<Order>, i: OrderId)
    requires TradeValid(t, live) && BothReduced(live, later, t) && t.amount <= live[t.buy].remaining
    requires Move(before.wallets, MovementFor(t, live)) == Ok(after.wallets) && after.trades == before.trades + [t]
    requires i < |live| && live[i].side.Buy?
    ensures i < |later| && TurnDebit(before, after, i, live[i].user)
                        == Cost(live[i].remaining, live[i].price) - Cost(later[i].remaining, live[i].price)
  {
    FillReducesBuyer(live, later, t, i);
    if t.buy == i {
      FallOfFill(before.wallets, live, t, later, after.wallets);
    }
  }

  /** What a fill takes from its buyer is the fall in the rounded cost of the buyer's remainder. */
  lemma FallOfFill(wallets: seq<Wallet>, orders: seq<Order>, t: Trade, later: seq<Order>, wallets': seq<Wallet>)
    requires TradeValid(t, orders) && BothReduced(orders, later, t)
    requires t.amount <= orders[t.buy].remaining && Move(wallets, MovementFor(t, orders)) == Ok(wallets')
    ensures var b := orders[t.buy];
            && b.user < |wallets| == |wallets'|
            && wallets[b.user].reservedUsd - wallets'[b.user].reservedUsd
            == Cost(b.remaining, b.price) - Cost(later[t.buy].remaining, b.price)
  {
    MoveDebits(wallets, MovementFor(t, orders), wallets');
    FillReducesBuyer(orders, later, t, t.buy);
  }

  /** A fill changes the BUY order it names as its buyer, by its amount, and no other. */
  lemma FillReducesBuyer(orders: seq<Order>, later: seq<Order>, t: Trade, i: OrderId)
    requires TradeValid(t, orders) && BothReduced(orders, later, t) && i < |orders| && orders[i].side.Buy?
    ensures i < |later| && later[i].remaining == orders[i].remaining - if t.buy == i then t.amount else 0
  {
  }

  lemma {:induction false} SettlementDebitsAre(s: State, openings: seq<Opening>, id: OrderId, n: nat, i: OrderId)
    requires Settling(s, openings, id, n) && i < |s.orders| && s.orders[i].side.Buy?
    ensures SettlementDebits(s, id, n, i)
         == Cost(s.orders[i].remaining, s.orders[i].price) - LiveCost(s, id, Turn(s, id, n).value, i)
  {
    NoTurnYet(s, id);
    if n > 0 {
      TurnStep(s, openings, id, n);
      SettlementDebitsAre(s, openings, id, n - 1, i);
      DebitIsFallOfLiveCost(s, openings, id, n, i);
    }
  }

  lemma ProcessDebits(s: State, openings: seq<Opening>, id: OrderId, s': State, i: OrderId)
    requires Sound(s, openings) && id < |s.orders| && s.orders[id].status == Queued && ProcessOrder(s, id) == Ok(s')
    requires i < |s.orders| && s.orders[i].side.Buy?
    ensures |s'.orders| == |s.orders|
    ensures SettlementDebits(s, id, |SelectMakers(s.orders, s.orders[id])|, i)
         == Cost(s.orders[i].remaining, s.orders[i].price) - Cost(s'.orders[i].remaining, s.orders[i].price)
  {
    LastTurn(s, openings, id, s');
    SettlementDebitsAre(s, openings, id, |SelectMakers(s.orders, s.orders[id])|, i);
  }

  lemma OthersExecuteNothing(s: State, c: Command, i: OrderId)
    requires !SettlesOrder(s, c) && i < |Apply(s, c).orders|
    ensures i < |s.orders| ==> Apply(s, c).orders[i].remaining == s.orders[i].remaining
    ensures |s.orders| <= i ==> Apply(s, c).orders[i].remaining == Apply(s, c).orders[i].original
  {
  }

  lemma {:induction false} NothingDebitedYet(commands: seq<Command>, i: OrderId)
    requires |Run(commands).orders| <= i
    ensures Debited(commands, i) == 0
  {
    if commands != [] {
      var n := |commands| - 1;
      ReachableIsSound(commands[..n]);
      Lifecycle.ApplyFollows(Run(commands[..n]), OpeningsOf(commands[..n]), commands[n]);
      NothingDebitedYet(commands[..n], i);
    }
  }

  /** In every run a BUY order's owner has been debited exactly what the order no longer reserves. */
  lemma {:induction false} DebitedIsFallOfCost(commands: seq<Command>, i: OrderId)
    requires i < |Run(commands).orders| && Run(commands).orders[i].side.Buy?
    ensures var o := Run(commands).orders[i];
            Debited(commands, i) == Cost(o.original, o.price) - Cost(o.remaining, o.price)
  {
    var n := |commands| - 1;
    var s, c := Run(commands[..n]), commands[n];
    ReachableIsSound(commands[..n]);
    Lifecycle.ApplyFollows(s, OpeningsOf(commands[..n]), c);
    if i < |s.orders| {
      assert Lifecycle.MayBecome(s.orders[i], Apply(s, c).orders[i]);
      DebitedIsFallOfCost(commands[..n], i);
    } else {
      NothingDebitedYet(commands[..n], i);
    }
    if SettlesOrder(s, c) {
      LastTurn(s, OpeningsOf(commands[..n]), c.id, Apply(s, c));
      ProcessDebits(s, OpeningsOf(commands[..n]), c.id, Apply(s, c), i);
    } else {
      OthersExecuteNothing(s, c, i);
    }
  }

  /**
   Over any run, as taker and then as maker, what the owner's wallet lost from its reservation
   for a BUY order is ⌊original·limit⌋ − ⌊remaining·limit⌋; the fills cost no more than that,
   and that is no more than was reserved.
   */
  lemma LifetimeCost(commands: seq<Command>, i: OrderId)
    requires i < |Run(commands).orders| && Run(commands).orders[i].side.Buy?
    ensures var s := Run(commands);
            var o := s.orders[i];
            && Debited(commands, i) == Cost(o.original, o.price) - Cost(o.remaining, o.price)
            && Paid(s.trades, i) <= Debited(commands, i) <= Cost(o.original, o.price)
  {
    DebitedIsFallOfCost(commands, i);
    LoggedCost(commands, i);
  }
}
