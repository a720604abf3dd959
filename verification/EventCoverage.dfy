/** The events a matching transaction stores, against the rows it wrote. */
module EventCoverage {
  import opened Outcomes
  import opened Model
  import opened OrderBook
  import opened Engine
  import opened Settlement
  import opened Market
  import opened Priority

  ghost predicate Distinct(users: seq<UserId>) {
    forall j, k :: 0 <= j < k < |users| ==> users[j] != users[k]
  }

  lemma AddUserKeepsDistinct(users: seq<UserId>, u: UserId)
    requires Distinct(users)
    ensures Distinct(AddUser(users, u))
    ensures forall v :: v in AddUser(users, u) <==> v == u || v in users
  {
  }

  /** The k-th maker traded and belongs to `u`. */
  ghost predicate TradedFor(orders: seq<Order>, makers: seq<OrderId>, amount: nat, u: UserId, k: nat)
    requires Rows(orders, makers)
  {
    k < |makers| && FillAt(orders, makers, amount, k) != 0 && orders[makers[k]].user == u
  }

  /** `u` owns the taker or a maker that traded. */
  ghost predicate Involved(orders: seq<Order>, id: OrderId, makers: seq<OrderId>, u: UserId)
    requires Rows(orders, makers) && id < |orders|
  {
    || u == orders[id].user
    || exists k: nat :: TradedFor(orders, makers, orders[id].remaining, u, k)
  }

  lemma {:induction false} UsersAreInvolved(orders: seq<Order>, id: OrderId, makers: seq<OrderId>, u: UserId)
    requires Rows(orders, makers) && id < |orders|
    ensures Distinct(UsersFor(orders, id, makers))
    ensures u in UsersFor(orders, id, makers) <==> Involved(orders, id, makers, u)
    decreases |makers|
  {
    if makers != [] {
      var n := |makers| - 1;
      var front := makers[..n];
      UsersAreInvolved(orders, id, front, u);
      AddUserKeepsDistinct(UsersFor(orders, id, front), orders[makers[n]].user);
      InvolvedStep(orders, id, makers, u);
    }
  }

  lemma InvolvedStep(orders: seq<Order>, id: OrderId, makers: seq<OrderId>, u: UserId)
    requires makers != [] && Rows(orders, makers) && Rows(orders, makers[..|makers| - 1]) && id < |orders|
    ensures var n := |makers| - 1;
            Involved(orders, id, makers, u)
            <==> (|| Involved(orders, id, makers[..n], u)
                  || (FillAt(orders, makers, orders[id].remaining, n) != 0 && orders[makers[n]].user == u))
  {
    var n := |makers| - 1;
    var front, amount := makers[..n], orders[id].remaining;
    forall k: nat | k < n
      ensures TradedFor(orders, front, amount, u, k) <==> TradedFor(orders, makers, amount, u, k)
    {
      assert front[..k] == makers[..k];
    }
    assert TradedFor(orders, makers, amount, u, n)
           <==> FillAt(orders, makers, amount, n) != 0 && orders[makers[n]].user == u;
  }

  /** Some order of `u` was written by the transaction. */
  ghost predicate WroteRowOf(orders: seq<Order>, later: seq<Order>, u: UserId) {
    exists i :: 0 <= i < |orders| && i < |later| && later[i] != orders[i] && orders[i].user == u
  }

  lemma WrittenRowsAreInvolved(s: State, openings: seq<Opening>, id: OrderId, s': State, u: UserId)
    requires Sound(s, openings) && ProcessOrder(s, id) == Ok(s') && s.orders[id].status == Queued
    ensures Rows(s.orders, SelectMakers(s.orders, s.orders[id])) && |s'.orders| == |s.orders|
    ensures WroteRowOf(s.orders, s'.orders, u) <==> Involved(s.orders, id, SelectMakers(s.orders, s.orders[id]), u)
  {
    var makers, amount := SelectMakers(s.orders, s.orders[id]), s.orders[id].remaining;
    ProcessedRow(s, openings, id, s', id);
    if WroteRowOf(s.orders, s'.orders, u) {
      var i :| 0 <= i < |s.orders| && i < |s'.orders| && s'.orders[i] != s.orders[i] && s.orders[i].user == u;
      ProcessedRow(s, openings, id, s', i);
      if i != id {
        var k :| 0 <= k < |makers| && makers[k] == i;
        assert TradedFor(s.orders, makers, amount, u, k);
      }
    }
    if Involved(s.orders, id, makers, u) {
      if u == s.orders[id].user {
        assert s'.orders[id] != s.orders[id];
      } else {
        var k: nat :| TradedFor(s.orders, makers, amount, u, k);
        SelectedRow(s, openings, id, s', k);
        assert s'.orders[makers[k]] != s.orders[makers[k]];
      }
    }
  }

  /** The rows named by the events: one market event, then one account event per user. */
  ghost predicate Announces(news: seq<Event>, id: OrderId, reason: Reason, tradeIds: seq<TradeId>, users: seq<UserId>) {
    && |news| == 1 + |users|
    && news[0] == MarketChanged(reason, id, tradeIds)
    && forall k :: 0 <= k < |users| ==> news[k + 1] == AccountChanged(reason, id, tradeIds, users[k])
  }

  /**
   A processed order announces exactly the trades it created, and exactly the users
   whose order rows it wrote, each once.
   */
  lemma EventsCoverWrites(s: State, openings: seq<Opening>, id: OrderId, s': State) returns (users: seq<UserId>)
    requires Sound(s, openings) && ProcessOrder(s, id) == Ok(s') && s.orders[id].status == Queued
    ensures s.events <= s'.events && s.trades <= s'.trades
    ensures var created := |s'.trades| - |s.trades|;
            Announces(s'.events[|s.events|..], id, if created == 0 then OrderOpened else TradeExecuted,
                      seq(created, k requires 0 <= k => |s.trades| + k), users)
    ensures Distinct(users)
    ensures forall u :: u in users <==> WroteRowOf(s.orders, s'.orders, u)
  {
    var makers := SelectMakers(s.orders, s.orders[id]);
    EventsOfProcess(s, openings, id, s');
    users := UsersFor(s.orders, id, makers);
    UsersAreInvolved(s.orders, id, makers, 0);
    forall u
      ensures u in users <==> WroteRowOf(s.orders, s'.orders, u)
    {
      UsersAreInvolved(s.orders, id, makers, u);
      WrittenRowsAreInvolved(s, openings, id, s', u);
    }
  }

  lemma EventsOfProcess(s: State, openings: seq<Opening>, id: OrderId, s': State)
    requires Sound(s, openings) && ProcessOrder(s, id) == Ok(s') && s.orders[id].status == Queued
    ensures Rows(s.orders, SelectMakers(s.orders, s.orders[id]))
    ensures s.events <= s'.events && s.trades <= s'.trades
    ensures var created := |s'.trades| - |s.trades|;
            Announces(s'.events[|s.events|..], id, if created == 0 then OrderOpened else TradeExecuted,
                      seq(created, k requires 0 <= k => |s.trades| + k),
                      UsersFor(s.orders, id, SelectMakers(s.orders, s.orders[id])))
  {
    ProcessRecords(s, openings, id, s');
    FinishAnnounces(s, id, s.orders[id], SettleTaker(s, id).value);
  }

  lemma ProcessRecords(s: State, openings: seq<Opening>, id: OrderId, s': State)
    requires Sound(s, openings) && ProcessOrder(s, id) == Ok(s') && s.orders[id].status == Queued
    ensures Rows(s.orders, SelectMakers(s.orders, s.orders[id]))
    ensures SettleTaker(s, id).Ok? && |SettleTaker(s, id).value.orders| == |s.orders|
    ensures s' == Finish(s, id, s.orders[id], SettleTaker(s, id).value)
    ensures s.trades <= s'.trades
    ensures var p, created := SettleTaker(s, id).value, |s'.trades| - |s.trades|;
            && p.tradeIds == seq(created, k requires 0 <= k => |s.trades| + k)
            && p.affected == UsersFor(s.orders, id, SelectMakers(s.orders, s.orders[id]))
            && (p.matched == 0 <==> created == 0)
  {
    ProcessFacts(s, openings, id, s');
    RecordsOfSettled(s, openings, id, SelectMakers(s.orders, s.orders[id]), SettleTaker(s, id).value);
  }

  lemma RecordsOfSettled(s: State, openings: seq<Opening>, id: OrderId, makers: seq<OrderId>, p: Progress)
    requires id < |s.orders| && Rows(s.orders, makers) && Settled(s, openings, id, makers, p)
    ensures |p.orders| == |s.orders| && s.trades <= p.trades
    ensures p.tradeIds == seq(|p.trades| - |s.trades|, k requires 0 <= k => |s.trades| + k)
    ensures p.affected == UsersFor(s.orders, id, makers)
    ensures p.matched == 0 <==> |p.trades| == |s.trades|
  {
  }

  lemma FinishAnnounces(s: State, id: OrderId, taker: Order, p: Progress)
    requires id < |p.orders|
    ensures s.events <= Finish(s, id, taker, p).events
    ensures Announces(Finish(s, id, taker, p).events[|s.events|..], id,
                      if p.matched == 0 then OrderOpened else TradeExecuted,
                      p.tradeIds, p.affected)
  {
  }
}
