/** The matching service: maker selection, the settlement loop, and rejection. */
module MatchingService {
  import opened Outcomes
  import opened Decimals
  import opened Model
  import opened OrderBook
  import opened Engine
  import opened Settlement
  import opened Wallets
  import opened TradeSettlement
  import opened OrderRequests
  import OrdersService

  // ----- maker selection -----

  ghost predicate ScannedTo(orders: seq<Order>, taker: Order, makers: seq<OrderId>, cursor: Option<Key>,
          remaining: nat) {
    && Rows(orders, makers)
    && PriorityBook(orders, taker, None) == makers + PriorityBook(orders, taker, cursor)
    && remaining == RestAfter(orders, makers, taker.remaining)
    && forall k :: 0 <= k < |makers| ==> RestAfter(orders, makers[..k], taker.remaining) != 0
  }

  lemma ScanStep(orders: seq<Order>, taker: Order, makers: seq<OrderId>, cursor: Option<Key>, remaining: nat,
          c: OrderId)
    requires ScannedTo(orders, taker, makers, cursor, remaining) && remaining != 0
    requires NextCandidate(orders, taker, cursor) == Some(c)
    ensures c < |orders|
    ensures ScannedTo(orders, taker, makers + [c], Some(KeyOf(orders, c)), remaining - FillAmount(orders[c], remaining))
  {
    var later := makers + [c];
    assert later[..|makers|] == makers;
    forall k | 0 <= k < |later|
      ensures RestAfter(orders, later[..k], taker.remaining) != 0
    {
      assert later[..k] == makers[..k];
      assert makers[..|makers|] == makers;
    }
    assert makers + ([c] + PriorityBook(orders, taker, Some(KeyOf(orders, c))))
           == later + PriorityBook(orders, taker, Some(KeyOf(orders, c)));
  }

  lemma {:induction false} CoverLengthIs(orders: seq<Order>, book: seq<OrderId>, amount: nat, k: nat, n: nat)
    requires Rows(orders, book) && k <= n <= |book|
    requires forall j :: k <= j < n ==> RestAfter(orders, book[..j], amount) != 0
    requires n == |book| || RestAfter(orders, book[..n], amount) == 0
    ensures CoverLength(orders, book, amount, k) == n
    decreases n - k
  {
    if k < n {
      CoverLengthIs(orders, book, amount, k + 1, n);
    }
  }

  lemma ScanEnds(orders: seq<Order>, taker: Order, makers: seq<OrderId>, cursor: Option<Key>, remaining: nat)
    requires ScannedTo(orders, taker, makers, cursor, remaining)
    requires remaining == 0 || NextCandidate(orders, taker, cursor) == None
    ensures makers == SelectMakers(orders, taker)
  {
    PriorityBookRows(orders, taker, None);
    var book, n := PriorityBook(orders, taker, None), |makers|;
    assert book[..n] == makers;
    forall j | 0 <= j < n
      ensures RestAfter(orders, book[..j], taker.remaining) != 0
    {
      assert book[..j] == makers[..j];
    }
    CoverLengthIs(orders, book, taker.remaining, 0, n);
  }

  /** On well-formed rows the re-check of the locked row repeats the query's filter. */
  lemma CandidateIsEligible(taker: Order, maker: Order)
    requires StatusConsistent(maker) && OrderInRange(maker)
    ensures IsCandidate(taker, maker) <==> IsEligibleMaker(taker, maker)
  {
  }

  /** findAndLockEligibleMakers with nothing running beside it; the rows it returns are the stored ones. */
  method FindAndLockEligibleMakers(tx: Database, taker: Order) returns (makers: seq<OrderId>)
    requires tx.Valid()
    ensures makers == SelectMakers(tx.orders, taker)
    ensures Rows(tx.orders, makers) && TakesBestOffers(tx.orders, taker, makers)
  {
    makers := [];
    var remaining: nat := taker.remaining;
    var cursor: Option<Key> := None;
    var candidate := NextCandidate(tx.orders, taker, cursor);
    while 0 < remaining && candidate.Some?
      invariant ScannedTo(tx.orders, taker, makers, cursor, remaining)
      invariant candidate == NextCandidate(tx.orders, taker, cursor)
      decreases CountAfter(tx.orders, taker, cursor, |tx.orders|)
    {
      var c := candidate.value;
      var maker := tx.orders[c];
      CursorAdvances(tx.orders, taker, cursor, c, |tx.orders|);
      CandidateIsEligible(taker, maker);
      ScanStep(tx.orders, taker, makers, cursor, remaining, c);
      cursor := Some(KeyOf(tx.orders, c));
      if IsEligibleMaker(taker, maker) {
        makers := makers + [c];
        var amount := Min(remaining, maker.remaining);
        if 0 < Cost(amount, maker.price) {
          remaining := remaining - amount;
        }
      }
      candidate := NextCandidate(tx.orders, taker, cursor);
    }
    ScanEnds(tx.orders, taker, makers, cursor, remaining);
    SelectionTakesBestOffers(tx.orders, taker);
  }

  // ----- the settlement loop -----

  lemma {:induction false} SettledStaysSettled(p: Progress, id: OrderId, taker: Order, book: seq<Order>,
          makers: seq<OrderId>, k: nat)
    requires Rows(book, makers) && |book| == |p.orders| && k <= |makers|
    requires SettleAll(p, id, taker, book, makers[..k]).Ok?
             && SettleAll(p, id, taker, book, makers[..k]).value.rest == 0
    ensures SettleAll(p, id, taker, book, makers) == SettleAll(p, id, taker, book, makers[..k])
    decreases |makers| - k
  {
    if k == |makers| {
      assert makers[..k] == makers;
    } else {
      assert makers[..k + 1][..k] == makers[..k];
      CostOfZero(book[makers[k]].price);
      SettledStaysSettled(p, id, taker, book, makers, k + 1);
    }
  }

  lemma {:induction false} FailedStaysFailed(p: Progress, id: OrderId, taker: Order, book: seq<Order>,
          makers: seq<OrderId>, k: nat)
    requires Rows(book, makers) && |book| == |p.orders| && k <= |makers|
    requires SettleAll(p, id, taker, book, makers[..k]).Err?
    ensures SettleAll(p, id, taker, book, makers) == SettleAll(p, id, taker, book, makers[..k])
    decreases |makers| - k
  {
    if k == |makers| {
      assert makers[..k] == makers;
    } else {
      assert makers[..k + 1][..k] == makers[..k];
      FailedStaysFailed(p, id, taker, book, makers, k + 1);
    }
  }

  lemma MoveKeepsRange(wallets: seq<Wallet>, taker: Order, maker: Order, q: nat)
    requires Settleable(taker, maker, q) && PartiesInRange(wallets, taker, maker)
    requires Move(wallets, MovementOf(taker, taker.remaining, maker, q)).Ok?
    requires WalletsInRange(wallets)
    ensures var later := Move(wallets, MovementOf(taker, taker.remaining, maker, q)).value;
            |later| == |wallets| && WalletsInRange(later)
  {
    var b := if taker.side.Buy? then taker else maker;
    Fills.DebitCoversCost(b.remaining, b.price, q, maker.price);
    Fills.FeeAtMost(q, MAKER_FEE_RATE);
    Fills.FeeAtMost(q, TAKER_FEE_RATE);
    Fills.FeeAtMost(Cost(q, maker.price), MAKER_FEE_RATE);
    Fills.FeeAtMost(Cost(q, maker.price), TAKER_FEE_RATE);
    var later := Move(wallets, MovementOf(taker, taker.remaining, maker, q)).value;
    forall u | 0 <= u < |later|
      ensures WalletInRange(later[u])
    {
      assert WalletInRange(wallets[u]);
    }
  }

  /** One turn of the loop that trades: balances, fees, the trade row and the maker's row. */
  method SettleMaker(tx: Database, id: OrderId, taker: Order, makerId: OrderId, maker: Order, q: nat)
    returns (r: Result<TradeId>)
    requires makerId < |tx.orders|
    modifies tx`wallets, tx`orders, tx`trades
    ensures old(tx.orders[makerId]) == maker && Settleable(taker, maker, q)
            && PartiesInRange(old(tx.wallets), taker, maker) ==>
      var moved := Move(old(tx.wallets), MovementOf(taker, taker.remaining, maker, q));
      && (r.Ok? <==> moved.Ok?)
      && (r.Err? ==> r.error == BalanceBounds)
      && (r.Ok? ==> && r.value == |old(tx.trades)|
                    && tx.wallets == moved.value
                    && tx.orders == old(tx.orders)[makerId := MakerAfter(maker, q)]
                    && tx.trades == old(tx.trades) + [TradeOf(id, taker, makerId, maker, q)])
  {
    if |tx.wallets| <= taker.user || |tx.wallets| <= maker.user {
      return Err(WalletNotFound);
    }
    if Settleable(taker, maker, q) {
      FeesNeverOverflow(taker, maker, q);
    }
    var settled :- ApplyTradeBalances(tx, taker, maker, q, maker.price);
    var fees :- BuildFeeDetails(taker.side, q, maker.price);
    var remaining :- SubtractScaled(maker.remaining, q);
    if remaining < 0 {
      return Err(Overflow);
    }
    var buy := if taker.side.Buy? then id else makerId;
    var sell := if taker.side.Sell? then id else makerId;
    var trade := |tx.trades|;
    tx.trades := tx.trades + [Trade(makerId, id, buy, sell, taker.side, maker.price, q, fees)];
    tx.orders := tx.orders[makerId := tx.orders[makerId].(
      remaining := remaining, status := if remaining == 0 then Filled else PartiallyFilled)];
    return Ok(trade);
  }

  function ProgressOf(tx: Database, rest: nat, matched: nat, tradeIds: seq<TradeId>, affected: seq<UserId>): Progress
    reads tx
  {
    Progress(tx.wallets, tx.orders, tx.trades, rest, matched, tradeIds, affected)
  }

  lemma TurnIsSettleable(taker: Order, rest: nat, maker: Order)
    requires OrderInRange(taker) && OrderInRange(maker) && rest <= taker.remaining && IsCandidate(taker, maker)
    requires FillAmount(maker, rest) != 0
    ensures Settleable(taker.(remaining := rest), maker, FillAmount(maker, rest))
  {
  }

  /** The movement depends on the taker's row only through its side, price and owner. */
  lemma MovementOfLiveTaker(taker: Order, rest: nat, maker: Order, q: nat)
    requires q <= rest && q <= maker.remaining
    ensures MovementOf(taker.(remaining := rest), rest, maker, q) == MovementOf(taker, rest, maker, q)
    ensures forall id, m :: TradeOf(id, taker.(remaining := rest), m, maker, q) == TradeOf(id, taker, m, maker, q)
  {
  }

  /** The rows of makers that have not had their turn are as they were read. */
  lemma {:induction false} UnreachedRows(p: Progress, id: OrderId, taker: Order, book: seq<Order>,
          makers: seq<OrderId>, k: nat, j: nat)
    requires Rows(book, makers) && p.orders == book && k <= j < |makers|
    requires forall a, b :: 0 <= a < b < |makers| ==> makers[a] != makers[b]
    requires SettleAll(p, id, taker, book, makers[..k]).Ok?
    ensures SettleAll(p, id, taker, book, makers[..k]).value.orders[makers[j]] == book[makers[j]]
    decreases k
  {
    if k > 0 {
      assert makers[..k][..k - 1] == makers[..k - 1];
      UnreachedRows(p, id, taker, book, makers, k - 1, j);
    }
  }

  lemma FoldStep(p: Progress, id: OrderId, taker: Order, book: seq<Order>, makers: seq<OrderId>, k: nat)
    requires Rows(book, makers) && |book| == |p.orders| && k < |makers|
    requires SettleAll(p, id, taker, book, makers[..k]).Ok?
    ensures SettleAll(p, id, taker, book, makers[..k + 1])
         == SettleOne(SettleAll(p, id, taker, book, makers[..k]).value, id, taker, makers[k], book[makers[k]])
  {
    assert makers[..k + 1][..k] == makers[..k];
  }

  ghost predicate WalletsInRange(wallets: seq<Wallet>) {
    forall u :: 0 <= u < |wallets| ==> WalletInRange(wallets[u])
  }

  /** One turn: an exhausted maker or a fragment worth nothing is passed over. */
  method TakeTurn(tx: Database, id: OrderId, taker: Order, makerId: OrderId, maker: Order,
                  restIn: nat, matchedIn: nat, tradeIdsIn: seq<TradeId>, affectedIn: seq<UserId>)
    returns (r: Result<()>, rest: nat, matched: nat, tradeIds: seq<TradeId>, affected: seq<UserId>)
    requires makerId < |tx.orders| && tx.orders[makerId] == maker
    requires OrderInRange(taker) && OrderInRange(maker) && restIn <= taker.remaining && IsCandidate(taker, maker)
    requires WalletsInRange(tx.wallets) && taker.user < |tx.wallets| && maker.user < |tx.wallets|
    modifies tx`wallets, tx`orders, tx`trades
    ensures var before := old(ProgressOf(tx, restIn, matchedIn, tradeIdsIn, affectedIn));
            var e := SettleOne(before, id, taker, makerId, maker);
            if e.Ok? then r.Ok? && e.value == ProgressOf(tx, rest, matched, tradeIds, affected)
            else r.Err? && r.error == e.error
    ensures r.Ok? ==>
              rest <= restIn && WalletsInRange(tx.wallets)
              && |tx.wallets| == |old(tx.wallets)| && |tx.orders| == |old(tx.orders)|
  {
    r, rest, matched, tradeIds, affected := Ok(()), restIn, matchedIn, tradeIdsIn, affectedIn;
    CostOfZero(maker.price);
    if maker.remaining <= 0 {
      return;
    }
    var q := Min(rest, maker.remaining);
    if Cost(q, maker.price) == 0 {
      return;
    }
    TurnIsSettleable(taker, rest, maker);
    MovementOfLiveTaker(taker, rest, maker, q);
    ghost var before := tx.wallets;
    var trade := SettleMaker(tx, id, taker.(remaining := rest), makerId, maker, q);
    if trade.Err? {
      r := Err(trade.error);
      return;
    }
    MoveKeepsRange(before, taker.(remaining := rest), maker, q);
    tradeIds := tradeIds + [trade.value];
    affected := AddUser(affected, maker.user);
    rest := rest - q;
    matched := matched + q;
  }

  /** The settlement loop: its variables end as the fold over the makers says, or the whole fails. */
  method SettleMakers(tx: Database, id: OrderId, taker: Order, makers: seq<OrderId>)
    returns (r: Result<()>, rest: nat, matched: nat, tradeIds: seq<TradeId>, affected: seq<UserId>)
    requires tx.Valid() && id < |tx.orders| && tx.orders[id] == taker && MakersFor(tx.orders, id, makers)
    modifies tx`wallets, tx`orders, tx`trades
    ensures var e := SettleAll(StartOf(old(tx.Snapshot()), taker), id, taker, old(tx.orders), makers);
            if e.Ok? then r.Ok? && e.value == ProgressOf(tx, rest, matched, tradeIds, affected)
            else r.Err? && r.error == e.error
  {
    ghost var start, book := StartOf(tx.Snapshot(), taker), tx.orders;
    var rows := tx.orders;
    r, rest, matched, tradeIds, affected := Ok(()), taker.remaining, 0, [], [taker.user];
    var k := 0;
    while k < |makers|
      invariant k <= |makers| && rest <= taker.remaining && r.Ok?
      invariant Rows(book, makers) && |tx.orders| == |book| && |tx.wallets| == |old(tx.wallets)|
      invariant WalletsInRange(tx.wallets)
      invariant SettleAll(start, id, taker, book, makers[..k]) == Ok(ProgressOf(tx, rest, matched, tradeIds, affected))
    {
      if rest <= 0 {
        SettledStaysSettled(start, id, taker, book, makers, k);
        return;
      }
      var maker := rows[makers[k]];
      UnreachedRows(start, id, taker, book, makers, k, k);
      FoldStep(start, id, taker, book, makers, k);
      assert IsCandidate(taker, maker);
      r, rest, matched, tradeIds, affected :=
        TakeTurn(tx, id, taker, makers[k], maker, rest, matched, tradeIds, affected);
      if r.Err? {
        FailedStaysFailed(start, id, taker, book, makers, k + 1);
        return;
      }
      k := k + 1;
    }
    assert makers[..k] == makers;
  }

  /** The transaction of `ProcessOrder`; on failure its writes are to be rolled back. */
  method MatchOrder(tx: Database, id: OrderId) returns (r: Result<()>)
    requires tx.Valid()
    modifies tx
    ensures var e := Engine.ProcessOrder(old(tx.Snapshot()), id);
            if e.Ok? then r.Ok? && tx.Snapshot() == e.value else r.Err? && r.error == e.error
  {
    if |tx.orders| <= id {
      return Err(OrderNotFound);
    }
    var taker := tx.orders[id];
    if taker.status != Queued {
      return Ok(());
    }
    var makers := FindAndLockEligibleMakers(tx, taker);
    if makers == [] {
      tx.orders := tx.orders[id := taker.(status := Open)];
      tx.events := tx.events + [MarketChanged(OrderOpened, id, []), AccountChanged(OrderOpened, id, [], taker.user)];
      return Ok(());
    }
    SelectedMakers(tx.orders, id);
    ghost var s := tx.Snapshot();
    var settled, rest, matched, tradeIds, affected := SettleMakers(tx, id, taker, makers);
    if settled.Err? {
      return Err(settled.error);
    }
    var status := if matched == 0 then Open else if rest == 0 then Filled else PartiallyFilled;
    var reason := if matched == 0 then OrderOpened else TradeExecuted;
    tx.orders := tx.orders[id := taker.(remaining := rest, status := status)];
    tx.events := tx.events + [MarketChanged(reason, id, tradeIds)] + AccountEvents(reason, id, tradeIds, affected);
    return Ok(());
  }

  /** processOrder. */
  method ProcessOrder(tx: Database, id: OrderId) returns (r: Result<()>)
    requires tx.Valid()
    modifies tx
    ensures tx.Snapshot() == Apply(old(tx.Snapshot()), Process(id))
    ensures var e := Engine.ProcessOrder(old(tx.Snapshot()), id);
            if e.Ok? then r.Ok? else r.Err? && r.error == e.error
  {
    var before := tx.Snapshot();
    r := MatchOrder(tx, id);
    if r.Err? {
      tx.Restore(before);
    }
  }

  /** rejectOrderAfterFailedProcessing. */
  method RejectOrder(tx: Database, id: OrderId) returns (r: Result<()>)
    requires tx.Valid()
    modifies tx
    ensures tx.Snapshot() == Apply(old(tx.Snapshot()), Reject(id))
    ensures var e := Engine.RejectOrder(old(tx.Snapshot()), id);
            if e.Ok? then r.Ok? else r.Err? && r.error == e.error
    ensures var s := old(tx.Snapshot());
            if id < |s.orders| && s.orders[id].status == Queued then
              && (r.Ok? <==> CanFree(s.wallets, s.orders[id]))
              && (r.Ok? ==>
                    && Ended(s, tx.Snapshot(), id, Rejected)
                    && tx.events == s.events + [AccountChanged(OrderRejected, id, [], s.orders[id].user)])
              && (r.Err? ==> tx.Snapshot() == s)
            else r.Ok? && tx.Snapshot() == s
  {
    RejectionEnds(tx.Snapshot(), id);
    if |tx.orders| <= id || tx.orders[id].status != Queued {
      return Ok(());
    }
    var before := tx.Snapshot();
    var order := tx.orders[id];
    OrdersService.HeldInRange(order);
    tx.orders := tx.orders[id := order.(status := Rejected)];
    r := ReleaseFunds(tx, order);
    if r.Err? {
      tx.Restore(before);
    } else {
      tx.events := tx.events + [AccountChanged(OrderRejected, id, [], order.user)];
    }
  }

}
