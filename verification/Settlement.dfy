/** The settlement loop over a whole list of makers, and the selection it runs on. */
module Settlement {
  import opened Outcomes
  import opened Decimals
  import opened Model
  import opened OrderBook
  import opened Engine
  import opened Ledger
  import opened Fills

  ghost predicate StatusesConsistent(orders: seq<Order>) {
    forall i :: 0 <= i < |orders| ==> StatusConsistent(orders[i])
  }

  /** The orders as they really are inside the loop: the taker's row carries the live remainder. */
  function Live(p: Progress, id: OrderId, taker: Order): seq<Order>
    requires id < |p.orders|
  {
    p.orders[id := taker.(remaining := p.rest)]
  }

  /** A list of distinct eligible makers for a queued taker. */
  ghost predicate MakersFor(orders: seq<Order>, id: OrderId, makers: seq<OrderId>) {
    && id < |orders| && orders[id].status == Queued
    && (forall k :: 0 <= k < |makers| ==> makers[k] < |orders| && IsCandidate(orders[id], orders[makers[k]]))
    && (forall j, k :: 0 <= j < k < |makers| ==> makers[j] != makers[k])
  }

  /** What the taker still needs when its turn comes to the k-th maker. */
  function RestAt(orders: seq<Order>, makers: seq<OrderId>, amount: nat, k: nat): nat
    requires Rows(orders, makers) && k <= |makers|
  {
    RestAfter(orders, makers[..k], amount)
  }

  function FillAt(orders: seq<Order>, makers: seq<OrderId>, amount: nat, k: nat): (q: nat)
    requires Rows(orders, makers) && k < |makers|
    ensures q <= orders[makers[k]].remaining && q <= RestAt(orders, makers, amount, k)
  {
    FillAmount(orders[makers[k]], RestAt(orders, makers, amount, k))
  }

  function MakerSettled(maker: Order, q: nat): Order
    requires q <= maker.remaining
  {
    if q == 0 then maker else MakerAfter(maker, q)
  }

  /** Exactly the listed makers are written, each by its own fill. */
  ghost predicate RowsSettled(orders: seq<Order>, later: seq<Order>, makers: seq<OrderId>, amount: nat)
    requires Rows(orders, makers)
  {
    && |later| == |orders|
    && (forall k :: 0 <= k < |makers| ==>
       later[makers[k]] == MakerSettled(orders[makers[k]], FillAt(orders, makers, amount, k)))
    && (forall i: nat :: i < |orders| && i !in makers ==> later[i] == orders[i])
  }

  /** The trades of the listed makers, in order; a zero-value fragment makes none. */
  function TradesFor(orders: seq<Order>, id: OrderId, makers: seq<OrderId>): seq<Trade>
    requires Rows(orders, makers) && id < |orders|
  {
    if makers == [] then []
    else
      var k := |makers| - 1;
      var q := FillAt(orders, makers, orders[id].remaining, k);
      TradesFor(orders, id, makers[..k])
      + if q == 0 then [] else [TradeOf(id, orders[id], makers[k], orders[makers[k]], q)]
  }

  /** The owners of the makers that traded, each once, after the taker. */
  function UsersFor(orders: seq<Order>, id: OrderId, makers: seq<OrderId>): seq<UserId>
    requires Rows(orders, makers) && id < |orders|
  {
    if makers == [] then [orders[id].user]
    else
      var k := |makers| - 1;
      var before := UsersFor(orders, id, makers[..k]);
      if FillAt(orders, makers, orders[id].remaining, k) == 0 then before else AddUser(before, orders[makers[k]].user)
  }

  ghost predicate Settled(s: State, openings: seq<Opening>, id: OrderId, makers: seq<OrderId>, p: Progress)
    requires Rows(s.orders, makers) && id < |s.orders|
  {
    var taker := s.orders[id];
    && p.rest == RestAfter(s.orders, makers, taker.remaining)
    && p.matched + p.rest == taker.remaining
    && RowsSettled(s.orders, p.orders, makers, taker.remaining)
    && p.trades == s.trades + TradesFor(s.orders, id, makers)
    && p.tradeIds == seq(|TradesFor(s.orders, id, makers)|, k requires 0 <= k => |s.trades| + k)
    && p.affected == UsersFor(s.orders, id, makers)
    && (p.matched == 0 <==> TradesFor(s.orders, id, makers) == [])
    && Books(p.wallets, Live(p, id, taker), p.trades, openings)
  }

  lemma PrefixMakers(orders: seq<Order>, id: OrderId, makers: seq<OrderId>, n: nat)
    requires MakersFor(orders, id, makers) && n <= |makers|
    ensures Rows(orders, makers) && MakersFor(orders, id, makers[..n])
  {
  }

  /** A later maker does not change what an earlier one fills. */
  lemma FillInFront(orders: seq<Order>, makers: seq<OrderId>, amount: nat, k: nat)
    requires Rows(orders, makers) && k < |makers| - 1 && Rows(orders, makers[..|makers| - 1])
    ensures FillAt(orders, makers[..|makers| - 1], amount, k) == FillAt(orders, makers, amount, k)
  {
    assert makers[..|makers| - 1][..k] == makers[..k];
  }

  lemma EarlierRowStays(orders: seq<Order>, before: seq<Order>, id: OrderId, makers: seq<OrderId>, amount: nat, k: nat)
    requires k < |makers| - 1 && MakersFor(orders, id, makers) && Rows(orders, makers)
    requires Rows(orders, makers[..|makers| - 1])
    requires RowsSettled(orders, before, makers[..|makers| - 1], amount)
    ensures makers[k] != makers[|makers| - 1] && makers[k] < |before|
    ensures before[makers[k]] == MakerSettled(orders[makers[k]], FillAt(orders, makers, amount, k))
  {
    var front := makers[..|makers| - 1];
    FillInFront(orders, makers, amount, k);
    assert before[front[k]] == MakerSettled(orders[front[k]], FillAt(orders, front, amount, k));
  }

  lemma OtherRowStays(orders: seq<Order>, before: seq<Order>, makers: seq<OrderId>, amount: nat, i: OrderId)
    requires makers != [] && i < |orders| && i !in makers
    requires Rows(orders, makers[..|makers| - 1])
    requires RowsSettled(orders, before, makers[..|makers| - 1], amount)
    ensures i != makers[|makers| - 1] && i < |before| && before[i] == orders[i]
  {
    assert i !in makers[..|makers| - 1];
    assert makers[|makers| - 1] in makers;
  }

  lemma MakersSettledStep(orders: seq<Order>, before: seq<Order>, id: OrderId, makers: seq<OrderId>, amount: nat,
          later: seq<Order>, k: nat)
    requires k < |makers| && MakersFor(orders, id, makers) && Rows(orders, makers)
    requires Rows(orders, makers[..|makers| - 1])
    requires RowsSettled(orders, before, makers[..|makers| - 1], amount)
    requires var m := makers[|makers| - 1];
             later == before[m := MakerSettled(orders[m], FillAt(orders, makers, amount, |makers| - 1))]
    ensures makers[k] < |later|
    ensures later[makers[k]] == MakerSettled(orders[makers[k]], FillAt(orders, makers, amount, k))
  {
    if k < |makers| - 1 {
      EarlierRowStays(orders, before, id, makers, amount, k);
    }
  }

  lemma RowsSettledStep(orders: seq<Order>, before: seq<Order>, id: OrderId, makers: seq<OrderId>, amount: nat,
          later: seq<Order>)
    requires makers != [] && MakersFor(orders, id, makers) && Rows(orders, makers)
    requires Rows(orders, makers[..|makers| - 1])
    requires RowsSettled(orders, before, makers[..|makers| - 1], amount)
    requires var m := makers[|makers| - 1];
             later == before[m := MakerSettled(orders[m], FillAt(orders, makers, amount, |makers| - 1))]
    ensures RowsSettled(orders, later, makers, amount)
  {
    forall k: nat | k < |makers|
      ensures makers[k] < |later|
      ensures later[makers[k]] == MakerSettled(orders[makers[k]], FillAt(orders, makers, amount, k))
    {
      MakersSettledStep(orders, before, id, makers, amount, later, k);
    }
    forall i: nat | i < |orders| && i !in makers
      ensures i < |later| && later[i] == orders[i]
    {
      OtherRowStays(orders, before, makers, amount, i);
    }
  }

  /** The row of the maker whose turn it is has not been touched yet. */
  lemma NextRowUntouched(orders: seq<Order>, before: seq<Order>, id: OrderId, makers: seq<OrderId>, amount: nat)
    requires makers != [] && MakersFor(orders, id, makers) && Rows(orders, makers[..|makers| - 1])
    requires RowsSettled(orders, before, makers[..|makers| - 1], amount)
    ensures var m := makers[|makers| - 1]; before[m] == orders[m] && m != id
  {
  }

  lemma SettleOneKeeps(s: State, openings: seq<Opening>, id: OrderId, makers: seq<OrderId>, before: Progress,
          p: Progress)
    requires makers != [] && MakersFor(s.orders, id, makers) && OrdersInRange(s.orders, |openings|)
    requires Rows(s.orders, makers) && Rows(s.orders, makers[..|makers| - 1])
    requires Settled(s, openings, id, makers[..|makers| - 1], before)
    requires var m := makers[|makers| - 1]; SettleOne(before, id, s.orders[id], m, s.orders[m]) == Ok(p)
    ensures Settled(s, openings, id, makers, p)
  {
    var n, taker := |makers| - 1, s.orders[id];
    var m := makers[n];
    var q := FillAmount(s.orders[m], before.rest);
    NextRowUntouched(s.orders, before.orders, id, makers, taker.remaining);
    RowsSettledStep(s.orders, before.orders, id, makers, taker.remaining,
      before.orders[m := MakerSettled(s.orders[m], q)]);
    RecordsStep(s, id, makers, before, p);
    if q == 0 {
      assert before.orders[m := s.orders[m]] == before.orders;
    } else {
      FillWithinLoop(s, openings, id, makers, before, p);
    }
  }

  lemma FillWithinLoop(s: State, openings: seq<Opening>, id: OrderId, makers: seq<OrderId>, before: Progress,
          p: Progress)
    requires makers != [] && MakersFor(s.orders, id, makers) && OrdersInRange(s.orders, |openings|)
    requires Rows(s.orders, makers) && Rows(s.orders, makers[..|makers| - 1])
    requires Settled(s, openings, id, makers[..|makers| - 1], before)
    requires FillAmount(s.orders[makers[|makers| - 1]], before.rest) != 0
    requires var m := makers[|makers| - 1]; SettleOne(before, id, s.orders[id], m, s.orders[m]) == Ok(p)
    ensures |p.orders| == |before.orders| && Books(p.wallets, Live(p, id, s.orders[id]), p.trades, openings)
  {
    var m, taker := makers[|makers| - 1], s.orders[id];
    NextRowUntouched(s.orders, before.orders, id, makers, taker.remaining);
    var t, live, later := LoopFillStep(before, openings, id, taker, m, s.orders[m]);
    TurnKeepsBooks(before, openings, id, taker, m, s.orders[m], p, t, live, later);
  }

  /** What one turn of the loop appends to its records. */
  lemma RecordsStep(s: State, id: OrderId, makers: seq<OrderId>, before: Progress, p: Progress)
    requires makers != [] && MakersFor(s.orders, id, makers)
    requires Rows(s.orders, makers) && Rows(s.orders, makers[..|makers| - 1])
    requires var front := makers[..|makers| - 1];
             && before.rest == RestAfter(s.orders, front, s.orders[id].remaining)
             && before.trades == s.trades + TradesFor(s.orders, id, front)
             && before.tradeIds == seq(|TradesFor(s.orders, id, front)|, k requires 0 <= k => |s.trades| + k)
             && before.affected == UsersFor(s.orders, id, front)
             && (before.matched == 0 <==> TradesFor(s.orders, id, front) == [])
             && |before.orders| == |s.orders|
    requires var m := makers[|makers| - 1]; SettleOne(before, id, s.orders[id], m, s.orders[m]) == Ok(p)
    ensures p.rest == RestAfter(s.orders, makers, s.orders[id].remaining)
    ensures p.matched + p.rest == before.matched + before.rest
    ensures p.trades == s.trades + TradesFor(s.orders, id, makers)
    ensures p.tradeIds == seq(|TradesFor(s.orders, id, makers)|, k requires 0 <= k => |s.trades| + k)
    ensures p.affected == UsersFor(s.orders, id, makers)
    ensures p.matched == 0 <==> TradesFor(s.orders, id, makers) == []
  {
    var n := |makers| - 1;
    var q := FillAmount(s.orders[makers[n]], before.rest);
    assert FillAt(s.orders, makers, s.orders[id].remaining, n) == q;
    if q != 0 {
      var t := TradeOf(id, s.orders[id], makers[n], s.orders[makers[n]], q);
      assert TradesFor(s.orders, id, makers) == TradesFor(s.orders, id, makers[..n]) + [t];
      assert p.trades == s.trades + (TradesFor(s.orders, id, makers[..n]) + [t]);
    } else {
      assert TradesFor(s.orders, id, makers) == TradesFor(s.orders, id, makers[..n]);
    }
  }

  lemma TurnOfFill(before: Progress, id: OrderId, taker: Order, m: OrderId, maker: Order, p: Progress)
    requires m < |before.orders| && FillAmount(maker, before.rest) != 0
    requires SettleOne(before, id, taker, m, maker) == Ok(p)
    ensures var q := FillAmount(maker, before.rest);
            && Move(before.wallets, MovementOf(taker, before.rest, maker, q)) == Ok(p.wallets)
            && p.orders == before.orders[m := MakerAfter(maker, q)]
            && p.trades == before.trades + [TradeOf(id, taker, m, maker, q)]
            && p.rest == before.rest - q
  {
  }

  lemma TurnKeepsBooks(before: Progress, openings: seq<Opening>, id: OrderId, taker: Order, m: OrderId, maker: Order,
          p: Progress, t: Trade, live: seq<Order>, later: seq<Order>)
    requires m < |before.orders| && id < |before.orders| && m != id && FillAmount(maker, before.rest) != 0
    requires SettleOne(before, id, taker, m, maker) == Ok(p)
    requires live == Live(before, id, taker) && t == TradeOf(id, taker, m, maker, FillAmount(maker, before.rest))
    requires later == live[m := MakerAfter(maker, FillAmount(maker, before.rest))]
                          [id := taker.(remaining := before.rest - FillAmount(maker, before.rest))]
    requires FillStep(before.wallets, live, before.trades, openings, t, later)
    requires MovementOf(taker, before.rest, maker, FillAmount(maker, before.rest)) == MovementFor(t, live)
    ensures |p.orders| == |before.orders| && Books(p.wallets, Live(p, id, taker), p.trades, openings)
  {
    LiveAfterTurn(before, id, taker, m, maker, p);
    FillKeepsBooks(before.wallets, live, before.trades, openings, t, later, p.wallets);
  }

  lemma LiveAfterTurn(before: Progress, id: OrderId, taker: Order, m: OrderId, maker: Order, p: Progress)
    requires m < |before.orders| && id < |before.orders| && m != id && FillAmount(maker, before.rest) != 0
    requires SettleOne(before, id, taker, m, maker) == Ok(p)
    ensures |p.orders| == |before.orders|
    ensures var q := FillAmount(maker, before.rest);
            && Live(p, id, taker)
            == Live(before, id, taker)[m := MakerAfter(maker, q)][id := taker.(remaining := before.rest - q)]
            && Move(before.wallets, MovementOf(taker, before.rest, maker, q)) == Ok(p.wallets)
            && p.trades == before.trades + [TradeOf(id, taker, m, maker, q)]
  {
    TurnOfFill(before, id, taker, m, maker, p);
  }

  /** The next trade of the loop is a fill step from the live rows. */
  lemma LoopFillStep(before: Progress, openings: seq<Opening>, id: OrderId, taker: Order, m: OrderId, maker: Order)
    returns (t: Trade, live: seq<Order>, later: seq<Order>)
    requires id < |before.orders| && m < |before.orders| && m != id && before.orders[m] == maker
    requires taker.status == Queued && IsCandidate(taker, maker) && FillAmount(maker, before.rest) != 0
    requires Books(before.wallets, Live(before, id, taker), before.trades, openings)
    ensures live == Live(before, id, taker)
    ensures t == TradeOf(id, taker, m, maker, FillAmount(maker, before.rest))
    ensures later == live[m := MakerAfter(maker, FillAmount(maker, before.rest))]
                         [id := taker.(remaining := before.rest - FillAmount(maker, before.rest))]
    ensures FillStep(before.wallets, live, before.trades, openings, t, later)
    ensures MovementOf(taker, before.rest, maker, FillAmount(maker, before.rest)) == MovementFor(t, live)
  {
    var q := FillAmount(maker, before.rest);
    live := Live(before, id, taker);
    t := TradeOf(id, taker, m, maker, q);
    later := live[m := MakerAfter(maker, q)][id := taker.(remaining := before.rest - q)];
    NextTradeIsValid(live, id, taker, before.rest, m, maker, t, later);
  }

  lemma NextTradeIsValid(live: seq<Order>, id: OrderId, taker: Order, rest: nat, m: OrderId, maker: Order, t: Trade,
          later: seq<Order>)
    requires id < |live| && m < |live| && id != m
    requires live[id] == taker.(remaining := rest) && live[m] == maker
    requires taker.status == Queued && IsCandidate(taker, maker) && FillAmount(maker, rest) != 0
    requires t == TradeOf(id, taker, m, maker, FillAmount(maker, rest))
    requires var q := FillAmount(maker, rest);
             later == live[m := MakerAfter(maker, q)][id := taker.(remaining := rest - q)]
    ensures TradeValid(t, live) && BothReduced(live, later, t)
    ensures MovementOf(taker, rest, maker, FillAmount(maker, rest)) == MovementFor(t, live)
  {
  }

  lemma {:induction false} SettleAllKeeps(s: State, openings: seq<Opening>, id: OrderId, makers: seq<OrderId>,
          p: Progress)
    requires Books(s.wallets, s.orders, s.trades, openings) && MakersFor(s.orders, id, makers)
    requires Rows(s.orders, makers)
    requires SettleAll(StartOf(s, s.orders[id]), id, s.orders[id], s.orders, makers) == Ok(p)
    ensures Settled(s, openings, id, makers, p)
    decreases |makers|
  {
    var taker := s.orders[id];
    if makers == [] {
      assert Live(p, id, taker) == s.orders;
    } else {
      var n := |makers| - 1;
      PrefixMakers(s.orders, id, makers, n);
      var before := SettleAll(StartOf(s, taker), id, taker, s.orders, makers[..n]).value;
      SettleAllKeeps(s, openings, id, makers[..n], before);
      SettleOneKeeps(s, openings, id, makers, before, p);
    }
  }

  /** With bounded supply settlement never fails. */
  lemma {:induction false} SettleAllSucceeds(s: State, openings: seq<Opening>, id: OrderId, makers: seq<OrderId>)
    requires Books(s.wallets, s.orders, s.trades, openings) && MakersFor(s.orders, id, makers)
    requires Rows(s.orders, makers)
    requires forall asset :: TotalOpening(openings, asset) <= DECIMAL_MAX
    ensures SettleAll(StartOf(s, s.orders[id]), id, s.orders[id], s.orders, makers).Ok?
    decreases |makers|
  {
    if makers != [] {
      var n, taker := |makers| - 1, s.orders[id];
      PrefixMakers(s.orders, id, makers, n);
      SettleAllSucceeds(s, openings, id, makers[..n]);
      var before := SettleAll(StartOf(s, taker), id, taker, s.orders, makers[..n]).value;
      SettleAllKeeps(s, openings, id, makers[..n], before);
      var maker := s.orders[makers[n]];
      var q := FillAmount(maker, before.rest);
      if q != 0 {
        NextRowUntouched(s.orders, before.orders, id, makers, taker.remaining);
        var t, live, later := LoopFillStep(before, openings, id, taker, makers[n], maker);
        FillFits(before.wallets, live, before.trades, openings, t, later);
      }
    }
  }

  // ----- the selection -----

  lemma SelectedMakers(orders: seq<Order>, id: OrderId)
    requires id < |orders| && orders[id].status == Queued
    ensures MakersFor(orders, id, SelectMakers(orders, orders[id]))
  {
    var taker := orders[id];
    PriorityBookIsOrdered(orders, taker, None);
    var book := PriorityBook(orders, taker, None);
    forall j, k | 0 <= j < k < |book|
      ensures book[j] != book[k]
    {
      assert Precedes(taker.side, KeyOf(orders, book[j]), KeyOf(orders, book[k]));
    }
    forall k | 0 <= k < |book|
      ensures book[k] < |orders| && IsCandidate(taker, orders[book[k]])
    {
      assert CandidateAt(orders, taker, None, book[k]);
    }
  }

  lemma {:induction false} RestShrinks(orders: seq<Order>, makers: seq<OrderId>, amount: nat, j: nat, k: nat)
    requires Rows(orders, makers) && j <= k <= |makers|
    ensures RestAt(orders, makers, amount, k) <= RestAt(orders, makers, amount, j)
    ensures j < k ==>
            RestAt(orders, makers, amount, k) <= RestAt(orders, makers, amount, j) - FillAt(orders, makers, amount, j)
    decreases k - j
  {
    if j < k {
      assert makers[..j + 1][..j] == makers[..j];
      assert RestAt(orders, makers, amount, j + 1)
             == RestAt(orders, makers, amount, j) - FillAt(orders, makers, amount, j);
      RestShrinks(orders, makers, amount, j + 1, k);
    }
  }

  /** Every selected maker is reached with something left to fill and something to fill it. */
  lemma SelectionIsNeeded(orders: seq<Order>, id: OrderId)
    requires StatusesConsistent(orders) && (forall i :: 0 <= i < |orders| ==> OrderInRange(orders[i]))
    requires id < |orders| && orders[id].status == Queued
    ensures var makers, amount := SelectMakers(orders, orders[id]), orders[id].remaining;
            && (forall k :: 0 <= k < |makers| ==>
               0 < RestAt(orders, makers, amount, k) && 0 < orders[makers[k]].remaining)
            && (RestAfter(orders, makers, amount) == 0 ==>
               makers != [] && 0 < FillAt(orders, makers, amount, |makers| - 1))
  {
    var taker := orders[id];
    var makers, amount := SelectMakers(orders, taker), taker.remaining;
    SelectedMakers(orders, id);
    PriorityBookRows(orders, taker, None);
    var book := PriorityBook(orders, taker, None);
    CoverLengthIsLeast(orders, book, amount, 0);
    forall k | 0 <= k < |makers|
      ensures 0 < RestAt(orders, makers, amount, k) && 0 < orders[makers[k]].remaining
    {
      assert makers[..k] == book[..k];
      assert StatusConsistent(orders[makers[k]]) && OrderInRange(orders[makers[k]]);
    }
    assert OrderInRange(taker) && StatusConsistent(taker);
    if makers != [] {
      assert RestAfter(orders, makers, amount)
             == RestAt(orders, makers, amount, |makers| - 1) - FillAt(orders, makers, amount, |makers| - 1);
    }
  }

  /**
   The two passes agree: every selected maker meets a taker that still needs something
   and has something itself, settlement ends with the quantity selection computed, and
   when that is zero the last selected maker trades.
   */
  lemma PassesAgree(s: State, openings: seq<Opening>, id: OrderId, p: Progress)
    requires Books(s.wallets, s.orders, s.trades, openings) && StatusesConsistent(s.orders)
    requires id < |s.orders| && s.orders[id].status == Queued
    requires var taker := s.orders[id];
             SettleAll(StartOf(s, taker), id, taker, s.orders, SelectMakers(s.orders, taker)) == Ok(p)
    ensures var makers, amount := SelectMakers(s.orders, s.orders[id]), s.orders[id].remaining;
            && p.rest == RestAfter(s.orders, makers, amount)
            && (forall k :: 0 <= k < |makers| ==>
               0 < RestAt(s.orders, makers, amount, k) && 0 < s.orders[makers[k]].remaining)
            && (p.rest == 0 ==> makers != [] && 0 < FillAt(s.orders, makers, amount, |makers| - 1))
  {
    SelectedMakers(s.orders, id);
    SettleAllKeeps(s, openings, id, SelectMakers(s.orders, s.orders[id]), p);
    SelectionIsNeeded(s.orders, id);
  }
}
