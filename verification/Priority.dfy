/** Price-time priority, read off the trades a processed order made. */
module Priority {
  import opened Outcomes
  import opened Decimals
  import opened Model
  import opened OrderBook
  import opened Engine
  import opened Settlement
  import opened Market

  /** The trades a transaction appended. */
  function NewTrades(s: State, s': State): seq<Trade> {
    if |s.trades| <= |s'.trades| then s'.trades[|s.trades|..] else []
  }

  /** How much the trades took from makers that stand before `key`. */
  function TakenAhead(trades: seq<Trade>, orders: seq<Order>, side: Side, key: Key): nat {
    if trades == [] then 0
    else
      var t := trades[|trades| - 1];
      TakenAhead(trades[..|trades| - 1], orders, side, key)
      + if t.maker < |orders| && Precedes(side, KeyOf(orders, t.maker), key) then t.amount else 0
  }

  lemma TakenAheadAppend(trades: seq<Trade>, t: Trade, orders: seq<Order>, side: Side, key: Key)
    ensures TakenAhead(trades + [t], orders, side, key)
         == TakenAhead(trades, orders, side, key)
            + if t.maker < |orders| && Precedes(side, KeyOf(orders, t.maker), key) then t.amount else 0
  {
  }

  ghost predicate InPriority(orders: seq<Order>, side: Side, makers: seq<OrderId>) {
    && Rows(orders, makers)
    && forall j, k :: 0 <= j < k < |makers| ==> Precedes(side, KeyOf(orders, makers[j]), KeyOf(orders, makers[k]))
  }

  lemma PositionIsPriority(orders: seq<Order>, side: Side, makers: seq<OrderId>, j: nat, k: nat)
    requires InPriority(orders, side, makers) && j < |makers| && k < |makers|
    ensures Precedes(side, KeyOf(orders, makers[j]), KeyOf(orders, makers[k])) <==> j < k
  {
  }

  /** One more maker adds its fill to the trades and takes it from the rest. */
  lemma TradesForStep(orders: seq<Order>, id: OrderId, makers: seq<OrderId>, n: nat)
    requires id < |orders| && Rows(orders, makers) && 0 < n <= |makers|
    ensures var q := FillAt(orders, makers, orders[id].remaining, n - 1);
            && RestAt(orders, makers, orders[id].remaining, n)
               == RestAt(orders, makers, orders[id].remaining, n - 1) - q
            && TradesFor(orders, id, makers[..n])
            == TradesFor(orders, id, makers[..n - 1])
               + if q == 0 then [] else [TradeOf(id, orders[id], makers[n - 1], orders[makers[n - 1]], q)]
  {
    assert makers[..n][..n - 1] == makers[..n - 1];
  }

  lemma TakenAheadStep(orders: seq<Order>, id: OrderId, makers: seq<OrderId>, n: nat, k: nat)
    requires id < |orders| && InPriority(orders, orders[id].side, makers) && 0 < n <= |makers| && k < |makers|
    ensures var side, key := orders[id].side, KeyOf(orders, makers[k]);
            (TakenAhead(TradesFor(orders, id, makers[..n]), orders, side, key)
             == TakenAhead(TradesFor(orders, id, makers[..n - 1]), orders, side, key)
                + if n - 1 < k then FillAt(orders, makers, orders[id].remaining, n - 1) else 0)
  {
    var side, key := orders[id].side, KeyOf(orders, makers[k]);
    TradesForStep(orders, id, makers, n);
    var q := FillAt(orders, makers, orders[id].remaining, n - 1);
    var before := TradesFor(orders, id, makers[..n - 1]);
    if q == 0 {
      assert TradesFor(orders, id, makers[..n]) == before;
    } else {
      TakenAheadAppend(before, TradeOf(id, orders[id], makers[n - 1], orders[makers[n - 1]], q), orders, side, key);
      PositionIsPriority(orders, side, makers, n - 1, k);
    }
  }

  /** At its turn a maker meets the taker minus what the makers before it took. */
  lemma {:induction false} RestIsWhatWasNotTakenAhead(orders: seq<Order>, id: OrderId, makers: seq<OrderId>, n: nat,
          k: nat)
    requires id < |orders| && InPriority(orders, orders[id].side, makers) && n <= |makers| && k < |makers|
    ensures TakenAhead(TradesFor(orders, id, makers[..n]), orders, orders[id].side, KeyOf(orders, makers[k]))
         == orders[id].remaining - RestAt(orders, makers, orders[id].remaining, if n < k then n else k)
  {
    if n > 0 {
      RestIsWhatWasNotTakenAhead(orders, id, makers, n - 1, k);
      TradesForStep(orders, id, makers, n);
      TakenAheadStep(orders, id, makers, n, k);
    }
  }

  lemma RestAtTurn(orders: seq<Order>, id: OrderId, makers: seq<OrderId>, k: nat)
    requires id < |orders| && InPriority(orders, orders[id].side, makers) && k < |makers|
    ensures TakenAhead(TradesFor(orders, id, makers), orders, orders[id].side, KeyOf(orders, makers[k]))
         == orders[id].remaining - RestAt(orders, makers, orders[id].remaining, k)
  {
    RestIsWhatWasNotTakenAhead(orders, id, makers, |makers|, k);
    assert makers[..|makers|] == makers;
  }

  lemma SelectionInPriority(orders: seq<Order>, taker: Order)
    ensures InPriority(orders, taker.side, SelectMakers(orders, taker))
  {
    PriorityBookIsOrdered(orders, taker, None);
  }

  /** Whoever stands before a selected maker in the book was selected before it. */
  lemma AheadIsSelected(orders: seq<Order>, taker: Order, i: OrderId, k: nat) returns (j: nat)
    requires k < |SelectMakers(orders, taker)| && CandidateAt(orders, taker, None, i) && Sequenced(orders)
    requires Precedes(taker.side, KeyOf(orders, i), KeyOf(orders, SelectMakers(orders, taker)[k]))
    ensures j < k && SelectMakers(orders, taker)[j] == i
  {
    PriorityBookRanks(orders, taker, None);
    var book := PriorityBook(orders, taker, None);
    j :| 0 <= j < |book| && book[j] == i;
    PriorityBookRows(orders, taker, None);
    PositionIsPriority(orders, taker.side, book, j, k);
  }

  lemma NewTradesOfProcess(s: State, openings: seq<Opening>, id: OrderId, s': State)
    requires Sound(s, openings) && ProcessOrder(s, id) == Ok(s') && s.orders[id].status == Queued
    ensures Rows(s.orders, SelectMakers(s.orders, s.orders[id]))
    ensures NewTrades(s, s') == TradesFor(s.orders, id, SelectMakers(s.orders, s.orders[id]))
  {
    ProcessFacts(s, openings, id, s');
  }

  /** When a later maker trades, an earlier one was emptied or was dust. */
  lemma EmptiedOrDust(orders: seq<Order>, makers: seq<OrderId>, amount: nat, h: nat, k: nat, rest: int)
    requires Rows(orders, makers) && h < k < |makers| && FillAt(orders, makers, amount, k) != 0
    requires rest == RestAt(orders, makers, amount, h)
    ensures || MakerSettled(orders[makers[h]], FillAt(orders, makers, amount, h)).status == Filled
            || WorthNothing(orders[makers[h]], rest)
  {
    RestShrinks(orders, makers, amount, h, k);
  }

  /** What the taker still needs once the makers before `key` have had their turn. */
  function RestAtKey(taker: Order, trades: seq<Trade>, orders: seq<Order>, key: Key): int {
    taker.remaining - TakenAhead(trades, orders, taker.side, key)
  }

  /** Where a maker that received a fill stands in the selection. */
  lemma FilledIsSelected(s: State, openings: seq<Opening>, id: OrderId, s': State, j: OrderId) returns (k: nat)
    requires Sound(s, openings) && ProcessOrder(s, id) == Ok(s') && s.orders[id].status == Queued
    requires |s'.orders| == |s.orders| && j < |s.orders| && j != id
    requires s'.orders[j].remaining < s.orders[j].remaining
    ensures Rows(s.orders, SelectMakers(s.orders, s.orders[id]))
    ensures var makers := SelectMakers(s.orders, s.orders[id]);
            k < |makers| && makers[k] == j && FillAt(s.orders, makers, s.orders[id].remaining, k) != 0
  {
    var makers := SelectMakers(s.orders, s.orders[id]);
    ProcessedRow(s, openings, id, s', j);
    assert j in makers;
    k :| 0 <= k < |makers| && makers[k] == j;
  }

  lemma SelectedRow(s: State, openings: seq<Opening>, id: OrderId, s': State, h: nat)
    requires Sound(s, openings) && ProcessOrder(s, id) == Ok(s') && s.orders[id].status == Queued
    requires h < |SelectMakers(s.orders, s.orders[id])|
    ensures |s'.orders| == |s.orders| && Rows(s.orders, SelectMakers(s.orders, s.orders[id]))
    ensures var makers := SelectMakers(s.orders, s.orders[id]);
            && makers[h] != id
            && IsCandidate(s.orders[id], s.orders[makers[h]])
            && s'.orders[makers[h]]
               == MakerSettled(s.orders[makers[h]], FillAt(s.orders, makers, s.orders[id].remaining, h))
  {
    var makers := SelectMakers(s.orders, s.orders[id]);
    ProcessedRow(s, openings, id, s', makers[h]);
  }

  lemma PriorityOfPositions(orders: seq<Order>, id: OrderId, makers: seq<OrderId>, h: nat, k: nat)
    requires id < |orders| && InPriority(orders, orders[id].side, makers)
    requires h < k < |makers| && FillAt(orders, makers, orders[id].remaining, k) != 0
    ensures var rest := RestAtKey(orders[id], TradesFor(orders, id, makers), orders, KeyOf(orders, makers[h]));
            || MakerSettled(orders[makers[h]], FillAt(orders, makers, orders[id].remaining, h)).status == Filled
            || WorthNothing(orders[makers[h]], rest)
  {
    RestAtTurn(orders, id, makers, h);
    EmptiedOrDust(orders, makers, orders[id].remaining, h, k,
                  RestAtKey(orders[id], TradesFor(orders, id, makers), orders, KeyOf(orders, makers[h])));
  }

  /** The positions of two makers in the selection, and what became of the first. */
  lemma PriorityWitness(s: State, openings: seq<Opening>, id: OrderId, s': State, i: OrderId, j: OrderId)
    returns (makers: seq<OrderId>, h: nat, k: nat)
    requires Sound(s, openings) && ProcessOrder(s, id) == Ok(s') && s.orders[id].status == Queued
    requires |s'.orders| == |s.orders| && i < |s.orders| && j < |s.orders| && j != id
    requires IsCandidate(s.orders[id], s.orders[i])
    requires Precedes(s.orders[id].side, KeyOf(s.orders, i), KeyOf(s.orders, j))
    requires s'.orders[j].remaining < s.orders[j].remaining
    ensures InPriority(s.orders, s.orders[id].side, makers) && h < k < |makers| && makers[h] == i
    ensures FillAt(s.orders, makers, s.orders[id].remaining, k) != 0
    ensures s'.orders[i] == MakerSettled(s.orders[i], FillAt(s.orders, makers, s.orders[id].remaining, h))
    ensures NewTrades(s, s') == TradesFor(s.orders, id, makers)
  {
    makers := SelectMakers(s.orders, s.orders[id]);
    k := FilledIsSelected(s, openings, id, s', j);
    h := AheadIsSelected(s.orders, s.orders[id], i, k);
    SelectedRow(s, openings, id, s', h);
    SelectionInPriority(s.orders, s.orders[id]);
    NewTradesOfProcess(s, openings, id, s');
  }

  /**
   If maker j received a fill, then every eligible maker i ahead of it by price then
   sequence was completely filled, or its fragment was worth nothing at its turn.
   */
  lemma PriceTimePriority(s: State, openings: seq<Opening>, id: OrderId, s': State, i: OrderId, j: OrderId)
    requires Sound(s, openings) && ProcessOrder(s, id) == Ok(s') && s.orders[id].status == Queued
    requires |s'.orders| == |s.orders| && i < |s.orders| && j < |s.orders| && j != id
    requires IsCandidate(s.orders[id], s.orders[i])
    requires Precedes(s.orders[id].side, KeyOf(s.orders, i), KeyOf(s.orders, j))
    requires s'.orders[j].remaining < s.orders[j].remaining
    ensures || s'.orders[i].status == Filled
            || WorthNothing(s.orders[i], RestAtKey(s.orders[id], NewTrades(s, s'), s.orders, KeyOf(s.orders, i)))
  {
    var makers, h, k := PriorityWitness(s, openings, id, s', i, j);
    PriorityOfPositions(s.orders, id, makers, h, k);
  }

  /** How much the trades took from makers with a better position than `o`. */
  ghost function TakenFromBetter(trades: seq<Trade>, orders: seq<Order>, taker: Order, o: Order): nat {
    if trades == [] then 0
    else
      var t := trades[|trades| - 1];
      TakenFromBetter(trades[..|trades| - 1], orders, taker, o)
      + if t.maker < |orders| && IsBetter(taker, orders[t.maker], o) then t.amount else 0
  }

  lemma {:induction false} BetterIsAhead(trades: seq<Trade>, orders: seq<Order>, taker: Order, i: OrderId)
    requires i < |orders|
    ensures TakenFromBetter(trades, orders, taker, orders[i])
         == TakenAhead(trades, orders, taker.side, KeyOf(orders, i))
  {
    if trades != [] {
      BetterIsAhead(trades[..|trades| - 1], orders, taker, i);
    }
  }

  /** The taker, less what better makers gave it, and this maker are worth less than one USD unit together. */
  ghost predicate WasDust(s: State, s': State, id: OrderId, i: OrderId) {
    && id < |s.orders| && i < |s.orders|
    && var rest := s.orders[id].remaining
                   - TakenFromBetter(NewTrades(s, s'), s.orders, s.orders[id], s.orders[i]);
       && 0 <= rest
       && (rest * s.orders[i].price < 100_000_000 || s.orders[i].remaining * s.orders[i].price < 100_000_000)
  }

  /** Price-time priority in prices and numbers: a better offer than a maker that traded was filled or dust. */
  lemma BetterOffersFirst(s: State, openings: seq<Opening>, id: OrderId, s': State, i: OrderId, j: OrderId)
    requires Sound(s, openings) && ProcessOrder(s, id) == Ok(s') && s.orders[id].status == Queued
    requires |s'.orders| == |s.orders| && i < |s.orders| && j < |s.orders| && j != id
    requires s'.orders[j].remaining < s.orders[j].remaining
    requires s.orders[i].side == s.orders[j].side && s.orders[i].user != s.orders[id].user
    requires s.orders[i].status == Open || s.orders[i].status == PartiallyFilled
    requires IsBetter(s.orders[id], s.orders[i], s.orders[j])
    ensures s'.orders[i].status == Filled || WasDust(s, s', id, i)
  {
    var k := FilledIsSelected(s, openings, id, s', j);
    SelectedRow(s, openings, id, s', k);
    PriceTimePriority(s, openings, id, s', i, j);
    BetterIsAhead(NewTrades(s, s'), s.orders, s.orders[id], i);
    if s'.orders[i].status != Filled {
      WorthLessThanAUnit(s.orders[i],
                         RestAtKey(s.orders[id], NewTrades(s, s'), s.orders, KeyOf(s.orders, i)));
    }
  }

  lemma WorthLessThanAUnit(maker: Order, rest: int)
    requires WorthNothing(maker, rest)
    ensures 0 <= rest && (rest * maker.price < 100_000_000 || maker.remaining * maker.price < 100_000_000)
  {
  }

  /** Each fill is at the maker's price, within both limits, and against an eligible maker. */
  lemma FillsAtMakerPrice(s: State, openings: seq<Opening>, id: OrderId, s': State, n: nat)
    requires Sound(s, openings) && ProcessOrder(s, id) == Ok(s') && s.orders[id].status == Queued
    requires n < |NewTrades(s, s')| && |s'.orders| == |s.orders|
    ensures var t := NewTrades(s, s')[n];
            && t.taker == id && t.maker < |s.orders|
            && IsCandidate(s.orders[id], s.orders[t.maker]) && IsOffer(s.orders[id], s.orders[t.maker])
            && t.takerSide == s.orders[id].side
            && t.fees == FeesOf(t.takerSide, t.amount, Cost(t.amount, t.price))
            && 0 < t.amount
            && t.buy == (if s.orders[id].side.Buy? then id else t.maker)
            && t.sell == (if s.orders[id].side.Buy? then t.maker else id)
            && t.price == s.orders[t.maker].price
            && s.orders[t.sell].price <= t.price <= s.orders[t.buy].price
            && s'.orders[t.maker].remaining + t.amount == s.orders[t.maker].remaining
  {
    var makers := SelectMakers(s.orders, s.orders[id]);
    NewTradesOfProcess(s, openings, id, s');
    var k := TradeHasMaker(s.orders, id, makers, n);
    SelectedRow(s, openings, id, s', k);
  }

  /** Every trade of a settlement is the fill of one listed maker. */
  lemma {:induction false} TradeHasMaker(orders: seq<Order>, id: OrderId, makers: seq<OrderId>, n: nat) returns (k: nat)
    requires id < |orders| && Rows(orders, makers) && n < |TradesFor(orders, id, makers)|
    ensures k < |makers| && FillAt(orders, makers, orders[id].remaining, k) != 0
    ensures TradesFor(orders, id, makers)[n]
         == TradeOf(id, orders[id], makers[k], orders[makers[k]], FillAt(orders, makers, orders[id].remaining, k))
    decreases |makers|
  {
    var last := |makers| - 1;
    if n < |TradesFor(orders, id, makers[..last])| {
      k := TradeHasMaker(orders, id, makers[..last], n);
      assert makers[..last][..k] == makers[..k];
    } else {
      k := last;
    }
  }
}
