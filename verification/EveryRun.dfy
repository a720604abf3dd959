/** What one processed order does, in every run. */
module EveryRun {
  import opened Outcomes
  import opened Decimals
  import opened Model
  import opened OrderBook
  import opened Engine
  import opened Settlement
  import opened Market
  import opened Reachability
  import Priority
  import EventCoverage

  /** After the run, processing queued order `id` commits `s'`. */
  predicate Processes(commands: seq<Command>, id: OrderId, s': State) {
    var s := Run(commands);
    id < |s.orders| && s.orders[id].status == Queued && ProcessOrder(s, id) == Ok(s')
  }

  /** The passes over the makers agree, and none of the loop's ways out is ever taken. */
  lemma PassesAgree(commands: seq<Command>, id: OrderId, s': State)
    requires Processes(commands, id, s')
    ensures var s := Run(commands);
            var makers, amount := SelectMakers(s.orders, s.orders[id]), s.orders[id].remaining;
            && |s'.orders| == |s.orders|
            && s'.orders[id].remaining == RestAfter(s.orders, makers, amount)
            && (forall k :: 0 <= k < |makers| ==>
               0 < RestAt(s.orders, makers, amount, k) && 0 < s.orders[makers[k]].remaining)
            && (s'.orders[id].status == Filled ==> makers != [] && 0 < FillAt(s.orders, makers, amount, |makers| - 1))
  {
    ReachableIsSound(commands);
    var s := Run(commands);
    ProcessFacts(s, OpeningsOf(commands), id, s');
    ProcessedRow(s, OpeningsOf(commands), id, s', id);
    Settlement.PassesAgree(s, OpeningsOf(commands), id, SettleTaker(s, id).value);
  }

  /**
   If maker `j` received a fill, every eligible maker ahead of it by price then sequence
   was filled completely, or its fragment was worth nothing at its turn.
   */
  lemma PriceTimePriority(commands: seq<Command>, id: OrderId, s': State, i: OrderId, j: OrderId)
    requires Processes(commands, id, s') && |s'.orders| == |Run(commands).orders|
    requires i < |s'.orders| && j < |s'.orders| && j != id && s'.orders[j].remaining < Run(commands).orders[j].remaining
    requires var orders := Run(commands).orders;
             IsCandidate(orders[id], orders[i]) && Precedes(orders[id].side, KeyOf(orders, i), KeyOf(orders, j))
    ensures var s := Run(commands);
            || s'.orders[i].status == Filled
            || WorthNothing(s.orders[i],
                            Priority.RestAtKey(s.orders[id], Priority.NewTrades(s, s'), s.orders, KeyOf(s.orders, i)))
  {
    ReachableIsSound(commands);
    Priority.PriceTimePriority(Run(commands), OpeningsOf(commands), id, s', i, j);
  }

  /** A buyer takes the cheapest ask first, and at one price the earliest. */
  lemma CheapestAskFirst(commands: seq<Command>, id: OrderId, s': State, i: OrderId, j: OrderId)
    requires Processes(commands, id, s') && |s'.orders| == |Run(commands).orders|
    requires i < |s'.orders| && j < |s'.orders| && j != id && s'.orders[j].remaining < Run(commands).orders[j].remaining
    requires var orders := Run(commands).orders;
             && orders[id].side.Buy? && orders[i].side.Sell? && orders[i].user != orders[id].user
             && (orders[i].status == Open || orders[i].status == PartiallyFilled)
             && (|| orders[i].price < orders[j].price
                 || (orders[i].price == orders[j].price && orders[i].sequence < orders[j].sequence))
    ensures s'.orders[i].status == Filled || Priority.WasDust(Run(commands), s', id, i)
  {
    ReachableIsSound(commands);
    FilledFacesTaker(commands, id, s', j);
    Priority.BetterOffersFirst(Run(commands), OpeningsOf(commands), id, s', i, j);
  }

  /** A seller takes the highest bid first, and at one price the earliest. */
  lemma HighestBidFirst(commands: seq<Command>, id: OrderId, s': State, i: OrderId, j: OrderId)
    requires Processes(commands, id, s') && |s'.orders| == |Run(commands).orders|
    requires i < |s'.orders| && j < |s'.orders| && j != id && s'.orders[j].remaining < Run(commands).orders[j].remaining
    requires var orders := Run(commands).orders;
             && orders[id].side.Sell? && orders[i].side.Buy? && orders[i].user != orders[id].user
             && (orders[i].status == Open || orders[i].status == PartiallyFilled)
             && (|| orders[j].price < orders[i].price
                 || (orders[i].price == orders[j].price && orders[i].sequence < orders[j].sequence))
    ensures s'.orders[i].status == Filled || Priority.WasDust(Run(commands), s', id, i)
  {
    ReachableIsSound(commands);
    FilledFacesTaker(commands, id, s', j);
    Priority.BetterOffersFirst(Run(commands), OpeningsOf(commands), id, s', i, j);
  }

  lemma FilledFacesTaker(commands: seq<Command>, id: OrderId, s': State, j: OrderId)
    requires Processes(commands, id, s') && |s'.orders| == |Run(commands).orders|
    requires j < |s'.orders| && j != id && s'.orders[j].remaining < Run(commands).orders[j].remaining
    ensures Run(commands).orders[j].side != Run(commands).orders[id].side
  {
    ReachableIsSound(commands);
    var k := Priority.FilledIsSelected(Run(commands), OpeningsOf(commands), id, s', j);
    Priority.SelectedRow(Run(commands), OpeningsOf(commands), id, s', k);
  }

  /** Each side pays its fee, five or three per mille and rounded down, in what it receives. */
  ghost predicate FeesCharged(t: Trade) {
    var cost := t.amount * t.price / 100_000_000;
    && t.fees.makerFeeRate == 500_000 && t.fees.takerFeeRate == 300_000
    && (t.takerSide.Buy? ==>
          && t.fees.makerFeeAsset == Usd && t.fees.makerFee == cost * 500_000 / 100_000_000
          && t.fees.takerFeeAsset == Btc && t.fees.takerFee == t.amount * 300_000 / 100_000_000)
    && (t.takerSide.Sell? ==>
          && t.fees.makerFeeAsset == Btc && t.fees.makerFee == t.amount * 500_000 / 100_000_000
          && t.fees.takerFeeAsset == Usd && t.fees.takerFee == cost * 300_000 / 100_000_000)
  }

  /**
   Every new trade is the taker's, with a resting order of another user on the other side, at
   that order's price and within both limits, and names its buyer and its seller.
   */
  lemma FillsAtMakerPrice(commands: seq<Command>, id: OrderId, s': State, n: nat)
    requires Processes(commands, id, s') && |s'.orders| == |Run(commands).orders|
    requires n < |Priority.NewTrades(Run(commands), s')|
    ensures var s := Run(commands);
            var t := Priority.NewTrades(s, s')[n];
            && t.taker == id && t.maker < |s.orders| && t.takerSide == s.orders[id].side
            && s.orders[t.maker].side != s.orders[id].side && s.orders[t.maker].user != s.orders[id].user
            && (s.orders[t.maker].status == Open || s.orders[t.maker].status == PartiallyFilled)
            && t.buy < |s.orders| && t.sell < |s.orders| && {t.buy, t.sell} == {t.maker, t.taker}
            && s.orders[t.buy].side.Buy? && s.orders[t.sell].side.Sell?
            && 0 < t.amount && FeesCharged(t)
            && t.price == s.orders[t.maker].price
            && s.orders[t.sell].price <= t.price <= s.orders[t.buy].price
            && s'.orders[t.maker].remaining + t.amount == s.orders[t.maker].remaining
  {
    ReachableIsSound(commands);
    Priority.FillsAtMakerPrice(Run(commands), OpeningsOf(commands), id, s', n);
    CostsAre(Priority.NewTrades(Run(commands), s')[n]);
  }

  lemma CostsAre(t: Trade)
    requires t.fees == FeesOf(t.takerSide, t.amount, Cost(t.amount, t.price))
    ensures FeesCharged(t)
  {
    assert Cost(t.amount, t.price) == t.amount * t.price / 100_000_000;
  }

  /** The stored events name exactly the trades made and exactly the users whose rows were written, each once. */
  lemma EventsCoverWrites(commands: seq<Command>, id: OrderId, s': State) returns (users: seq<UserId>)
    requires Processes(commands, id, s')
    ensures var s := Run(commands);
            && s.events <= s'.events && s.trades <= s'.trades
            && EventCoverage.Announces(s'.events[|s.events|..], id,
                 if |s'.trades| == |s.trades| then OrderOpened else TradeExecuted,
                 seq(|s'.trades| - |s.trades|, k requires 0 <= k => |s.trades| + k), users)
            && EventCoverage.Distinct(users)
            && forall u :: u in users <==> EventCoverage.WroteRowOf(s.orders, s'.orders, u)
  {
    ReachableIsSound(commands);
    users := EventCoverage.EventsCoverWrites(Run(commands), OpeningsOf(commands), id, s');
  }
}
