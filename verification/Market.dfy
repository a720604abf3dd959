/** Matching as a whole: what one processed order does to the book. */
module Market {
  import opened Outcomes
  import opened Decimals
  import opened Model
  import opened OrderBook
  import opened Engine
  import opened Ledger
  import opened Settlement

  /** A resting BUY and a resting SELL of different users that cross are worth nothing together. */
  ghost predicate CrossIsDust(b: Order, s: Order) {
    b.side.Buy? && s.side.Sell? && IsResting(b.status) && IsResting(s.status) && b.user != s.user && s.price <= b.price
    ==> Cost(Min(b.remaining, s.remaining), s.price) == 0
  }

  ghost predicate BookUncrossed(orders: seq<Order>) {
    forall i, j :: 0 <= i < |orders| && 0 <= j < |orders| ==> CrossIsDust(orders[i], orders[j])
  }

  /** A taker still needing `rest` and this maker are worth less than one USD unit together. */
  predicate WorthNothing(maker: Order, rest: int) {
    0 <= rest && Cost(Min(rest, maker.remaining), maker.price) == 0
  }

  lemma DustStaysDust(maker: Order, rest: int, later: Order, less: int)
    requires WorthNothing(maker, rest) && 0 <= less <= rest
    requires later.price == maker.price && later.remaining <= maker.remaining
    ensures WorthNothing(later, less)
  {
  }

  /** The invariant of the engine. */
  ghost predicate Sound(s: State, openings: seq<Opening>) {
    && Books(s.wallets, s.orders, s.trades, openings)
    && StatusesConsistent(s.orders)
    && BookUncrossed(s.orders)
    && Sequenced(s.orders)
  }

  /** The progress the settlement of a queued order ends with, if it does not fail. */
  function SettleTaker(s: State, id: OrderId): Result<Progress>
    requires id < |s.orders|
  {
    SettleAll(StartOf(s, s.orders[id]), id, s.orders[id], s.orders, SelectMakers(s.orders, s.orders[id]))
  }

  /** Opening a taker without makers is finishing an empty settlement. */
  lemma ProcessIsFinish(s: State, id: OrderId)
    requires id < |s.orders| && s.orders[id].status == Queued
    ensures SettleTaker(s, id).Ok? <==> ProcessOrder(s, id).Ok?
    ensures ProcessOrder(s, id).Ok? ==>
            ProcessOrder(s, id).value == Finish(s, id, s.orders[id], SettleTaker(s, id).value)
  {
  }

  lemma ProcessFacts(s: State, openings: seq<Opening>, id: OrderId, s': State)
    requires Sound(s, openings) && id < |s.orders| && s.orders[id].status == Queued
    requires ProcessOrder(s, id) == Ok(s')
    ensures SettleTaker(s, id).Ok?
    ensures var p, makers := SettleTaker(s, id).value, SelectMakers(s.orders, s.orders[id]);
            && MakersFor(s.orders, id, makers)
            && Rows(s.orders, makers)
            && Settled(s, openings, id, makers, p)
            && s' == Finish(s, id, s.orders[id], p)
  {
    ProcessIsFinish(s, id);
    SelectedMakers(s.orders, id);
    SettleAllKeeps(s, openings, id, SelectMakers(s.orders, s.orders[id]), SettleTaker(s, id).value);
  }

  /** A row whose hold does not change may change its status without touching the books. */
  lemma StatusKeepsBooks(wallets: seq<Wallet>, orders: seq<Order>, trades: seq<Trade>, openings: seq<Opening>,
          i: OrderId, status: Status)
    requires Books(wallets, orders, trades, openings) && i < |orders|
    requires IsActive(orders[i].status) && (IsActive(status) || orders[i].remaining == 0)
    ensures Books(wallets, orders[i := orders[i].(status := status)], trades, openings)
  {
    var later := orders[i := orders[i].(status := status)];
    TradesValidFrame(trades, orders, later);
    forall u, asset | 0 <= u < |wallets|
      ensures AccountBalances(wallets, later, trades, openings, u, asset)
    {
      assert AccountBalances(wallets, orders, trades, openings, u, asset);
      HoldsUpdate(orders, i, orders[i].(status := status), u, asset);
      CostOfZero(orders[i].price);
      GainsFrame(trades, orders, later, u, asset);
    }
    forall k | 0 <= k < |later|
      ensures OrderInRange(later[k]) && later[k].user < |wallets|
      ensures later[k].original - later[k].remaining == Executed(trades, k)
    {
      assert OrderInRange(orders[k]);
    }
  }

  lemma ProcessKeepsBooks(s: State, openings: seq<Opening>, id: OrderId, s': State)
    requires Sound(s, openings) && id < |s.orders| && s.orders[id].status == Queued
    requires ProcessOrder(s, id) == Ok(s')
    ensures Books(s'.wallets, s'.orders, s'.trades, openings)
  {
    ProcessFacts(s, openings, id, s');
    var p, taker := SettleTaker(s, id).value, s.orders[id];
    var live := Live(p, id, taker);
    StatusKeepsBooks(p.wallets, live, p.trades, openings, id, TakerStatus(p));
    assert live[id := live[id].(status := TakerStatus(p))] == s'.orders;
  }

  /** How any row looks after a processed order. */
  lemma ProcessedRow(s: State, openings: seq<Opening>, id: OrderId, s': State, i: OrderId)
    requires Sound(s, openings) && id < |s.orders| && s.orders[id].status == Queued
    requires ProcessOrder(s, id) == Ok(s') && i < |s.orders|
    ensures |s'.orders| == |s.orders|
    ensures var makers, amount := SelectMakers(s.orders, s.orders[id]), s.orders[id].remaining;
            && MakersFor(s.orders, id, makers)
            && (i == id ==>
                  && s'.orders[i].remaining == RestAfter(s.orders, makers, amount)
                  && s'.orders[i] == s.orders[i].(remaining := s'.orders[i].remaining, status := s'.orders[i].status)
                  && s'.orders[i].status == (if s'.orders[i].remaining == amount then Open
                                             else if s'.orders[i].remaining == 0 then Filled else PartiallyFilled))
            && (i != id && i !in makers ==> s'.orders[i] == s.orders[i])
            && (forall k :: 0 <= k < |makers| && makers[k] == i ==>
                  i != id && s'.orders[i] == MakerSettled(s.orders[i], FillAt(s.orders, makers, amount, k)))
  {
    ProcessFacts(s, openings, id, s');
    assert OrderInRange(s.orders[id]);
  }

  lemma ProcessKeepsStatuses(s: State, openings: seq<Opening>, id: OrderId, s': State)
    requires Sound(s, openings) && id < |s.orders| && s.orders[id].status == Queued
    requires ProcessOrder(s, id) == Ok(s')
    ensures StatusesConsistent(s'.orders) && |s'.orders| == |s.orders|
  {
    ProcessedRow(s, openings, id, s', id);
    forall i | 0 <= i < |s'.orders|
      ensures StatusConsistent(s'.orders[i])
    {
      ProcessedStatus(s, openings, id, s', i);
    }
  }

  lemma ProcessedStatus(s: State, openings: seq<Opening>, id: OrderId, s': State, i: OrderId)
    requires Sound(s, openings) && id < |s.orders| && s.orders[id].status == Queued
    requires ProcessOrder(s, id) == Ok(s') && i < |s.orders|
    ensures |s'.orders| == |s.orders| && StatusConsistent(s'.orders[i])
  {
    var makers := SelectMakers(s.orders, s.orders[id]);
    ProcessedRow(s, openings, id, s', i);
    assert StatusConsistent(s.orders[i]) && OrderInRange(s.orders[i]);
    if i in makers {
      var k :| 0 <= k < |makers| && makers[k] == i;
      assert IsCandidate(s.orders[id], s.orders[makers[k]]);
    }
  }

  /** A taker left with something has met every eligible maker. */
  lemma UncoveredMetEveryone(s: State, openings: seq<Opening>, id: OrderId, s': State, i: OrderId)
    requires Sound(s, openings) && id < |s.orders| && s.orders[id].status == Queued
    requires ProcessOrder(s, id) == Ok(s') && |s'.orders| == |s.orders| && 0 < s'.orders[id].remaining
    requires i < |s.orders| && IsCandidate(s.orders[id], s.orders[i])
    ensures i in SelectMakers(s.orders, s.orders[id])
  {
    var taker := s.orders[id];
    ProcessedRow(s, openings, id, s', id);
    PriorityBookRanks(s.orders, taker, None);
    PriorityBookRows(s.orders, taker, None);
    var book := PriorityBook(s.orders, taker, None);
    assert CandidateAt(s.orders, taker, None, i);
    CoverLengthIsLeast(s.orders, book, taker.remaining, 0);
    assert book[..|book|] == book;
  }

  /** The processed taker and any resting order opposite it. */
  lemma TakerLeavesDust(s: State, openings: seq<Opening>, id: OrderId, s': State, i: OrderId)
    requires Sound(s, openings) && id < |s.orders| && s.orders[id].status == Queued
    requires ProcessOrder(s, id) == Ok(s') && |s'.orders| == |s.orders| && i < |s.orders| && i != id
    requires IsResting(s'.orders[id].status) && IsResting(s'.orders[i].status)
    requires IsCandidate(s.orders[id], s.orders[i])
    ensures WorthNothing(s'.orders[i], s'.orders[id].remaining)
  {
    var makers, amount := SelectMakers(s.orders, s.orders[id]), s.orders[id].remaining;
    var k := RestingMakerWasDust(s, openings, id, s', i);
    RestShrinks(s.orders, makers, amount, k, |makers|);
    assert makers[..|makers|] == makers;
    ProcessedRow(s, openings, id, s', id);
    DustStaysDust(s.orders[i], RestAt(s.orders, makers, amount, k), s'.orders[i], s'.orders[id].remaining);
  }

  /** A maker that still rests opposite a resting taker was worth nothing at its turn. */
  lemma RestingMakerWasDust(s: State, openings: seq<Opening>, id: OrderId, s': State, i: OrderId) returns (k: nat)
    requires Sound(s, openings) && id < |s.orders| && s.orders[id].status == Queued
    requires ProcessOrder(s, id) == Ok(s') && |s'.orders| == |s.orders| && i < |s.orders| && i != id
    requires IsResting(s'.orders[id].status) && IsResting(s'.orders[i].status)
    requires IsCandidate(s.orders[id], s.orders[i])
    ensures Rows(s.orders, SelectMakers(s.orders, s.orders[id]))
    ensures var makers, amount := SelectMakers(s.orders, s.orders[id]), s.orders[id].remaining;
            && k < |makers| && makers[k] == i && s'.orders[i] == s.orders[i]
            && WorthNothing(s.orders[i], RestAt(s.orders, makers, amount, k))
  {
    TakerKeepsSomething(s, openings, id, s');
    UncoveredMetEveryone(s, openings, id, s', i);
    ProcessedRow(s, openings, id, s', i);
    ProcessedRow(s, openings, id, s', id);
    var makers, amount := SelectMakers(s.orders, s.orders[id]), s.orders[id].remaining;
    k :| 0 <= k < |makers| && makers[k] == i;
    UnfilledWasDust(s.orders, makers, amount, k, s'.orders[i]);
  }

  /** With something left of the taker, a maker that rests after its turn was not filled in it. */
  lemma UnfilledWasDust(orders: seq<Order>, makers: seq<OrderId>, amount: nat, k: nat, row: Order)
    requires Rows(orders, makers) && k < |makers| && 0 < RestAfter(orders, makers, amount)
    requires row == MakerSettled(orders[makers[k]], FillAt(orders, makers, amount, k)) && IsResting(row.status)
    ensures row == orders[makers[k]] && WorthNothing(orders[makers[k]], RestAt(orders, makers, amount, k))
  {
    RestShrinks(orders, makers, amount, k, |makers|);
    assert makers[..|makers|] == makers;
  }

  lemma TakerKeepsSomething(s: State, openings: seq<Opening>, id: OrderId, s': State)
    requires Sound(s, openings) && id < |s.orders| && s.orders[id].status == Queued
    requires ProcessOrder(s, id) == Ok(s') && |s'.orders| == |s.orders| && IsResting(s'.orders[id].status)
    ensures 0 < s'.orders[id].remaining
  {
    ProcessKeepsStatuses(s, openings, id, s');
    ProcessedRow(s, openings, id, s', id);
    assert StatusConsistent(s'.orders[id]) && OrderInRange(s.orders[id]);
  }

  lemma SmallerCrossIsDust(b: Order, s: Order, b': Order, s': Order)
    requires CrossIsDust(b, s)
    requires SameTerms(b, b') && SameTerms(s, s') && b'.remaining <= b.remaining && s'.remaining <= s.remaining
    requires IsResting(b'.status) ==> IsResting(b.status)
    requires IsResting(s'.status) ==> IsResting(s.status)
    ensures CrossIsDust(b', s')
  {
    CostMonotone(Min(b'.remaining, s'.remaining), Min(b.remaining, s.remaining), s.price, s.price);
  }

  /** Rows other than the taker only shrink. */
  lemma OthersShrink(s: State, openings: seq<Opening>, id: OrderId, s': State, i: OrderId)
    requires Sound(s, openings) && id < |s.orders| && s.orders[id].status == Queued
    requires ProcessOrder(s, id) == Ok(s') && i < |s.orders|
    ensures |s'.orders| == |s.orders| && SameTerms(s.orders[i], s'.orders[i])
    ensures s'.orders[i].remaining <= s.orders[i].remaining
    ensures i != id && IsResting(s'.orders[i].status) ==> IsResting(s.orders[i].status)
    ensures i != id && s'.orders[i] != s.orders[i] ==> IsResting(s.orders[i].status)
  {
    var makers := SelectMakers(s.orders, s.orders[id]);
    ProcessedRow(s, openings, id, s', i);
    if i in makers {
      var k :| 0 <= k < |makers| && makers[k] == i;
      assert IsCandidate(s.orders[id], s.orders[makers[k]]);
    }
  }

  /** No executable cross is left resting. */
  lemma ProcessKeepsBookUncrossed(s: State, openings: seq<Opening>, id: OrderId, s': State)
    requires Sound(s, openings) && id < |s.orders| && s.orders[id].status == Queued
    requires ProcessOrder(s, id) == Ok(s')
    ensures BookUncrossed(s'.orders)
  {
    OthersShrink(s, openings, id, s', id);
    forall i, j | 0 <= i < |s'.orders| && 0 <= j < |s'.orders|
      ensures CrossIsDust(s'.orders[i], s'.orders[j])
    {
      OthersShrink(s, openings, id, s', i);
      OthersShrink(s, openings, id, s', j);
      assert CrossIsDust(s.orders[i], s.orders[j]);
      if i != id && j != id {
        SmallerCrossIsDust(s.orders[i], s.orders[j], s'.orders[i], s'.orders[j]);
      } else if i != j {
        CrossWithTaker(s, openings, id, s', i, j);
      }
    }
  }

  lemma CrossWithTaker(s: State, openings: seq<Opening>, id: OrderId, s': State, i: OrderId, j: OrderId)
    requires Sound(s, openings) && id < |s.orders| && s.orders[id].status == Queued
    requires ProcessOrder(s, id) == Ok(s') && |s'.orders| == |s.orders|
    requires i < |s.orders| && j < |s.orders| && i != j && (i == id || j == id)
    ensures CrossIsDust(s'.orders[i], s'.orders[j])
  {
    var b, a := s'.orders[i], s'.orders[j];
    if && b.side.Buy? && a.side.Sell? && IsResting(b.status) && IsResting(a.status)
       && b.user != a.user && a.price <= b.price
    {
      var other := if i == id then j else i;
      OthersShrink(s, openings, id, s', i);
      OthersShrink(s, openings, id, s', j);
      TakerLeavesDust(s, openings, id, s', other);
      assert WorthNothing(s'.orders[other], s'.orders[id].remaining);
      CostMonotone(Min(b.remaining, a.remaining), Min(s'.orders[id].remaining, s'.orders[other].remaining),
                   a.price, s'.orders[other].price);
    }
  }

  lemma ProcessKeepsSequences(s: State, openings: seq<Opening>, id: OrderId, s': State)
    requires Sound(s, openings) && ProcessOrder(s, id) == Ok(s') && s.orders[id].status == Queued
    ensures |s'.orders| == |s.orders| && Sequenced(s'.orders)
  {
    OthersShrink(s, openings, id, s', id);
    forall i: OrderId | i < |s.orders|
      ensures s'.orders[i].sequence == s.orders[i].sequence
    {
      OthersShrink(s, openings, id, s', i);
    }
  }

  lemma ProcessKeepsSound(s: State, openings: seq<Opening>, id: OrderId, s': State)
    requires Sound(s, openings) && ProcessOrder(s, id) == Ok(s')
    ensures Sound(s', openings)
  {
    if s.orders[id].status == Queued {
      ProcessKeepsBooks(s, openings, id, s');
      ProcessKeepsStatuses(s, openings, id, s');
      ProcessKeepsBookUncrossed(s, openings, id, s');
      ProcessKeepsSequences(s, openings, id, s');
    }
  }
}
