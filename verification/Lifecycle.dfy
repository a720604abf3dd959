/** Order lifecycles and deliveries over whole runs. */
module Lifecycle {
  import opened Outcomes
  import opened Model
  import opened OrderBook
  import opened Engine
  import opened Ledger
  import opened Settlement
  import opened Market
  import opened Priority
  import opened Reachability

  predicate IsFinal(status: Status) {
    status == Filled || status == Cancelled || status == Rejected
  }

  /** Forward through the statuses: a queued order may still be rejected, a resting one only filled or cancelled. */
  predicate MayFollow(status: Status, later: Status) {
    || later == status
    || (match status
        case Queued => true
        case Open => later == PartiallyFilled || later == Filled || later == Cancelled
        case PartiallyFilled => later == Filled || later == Cancelled
        case _ => false)
  }

  /** How a row may change: terms are fixed, the remainder shrinks, final rows stay. */
  ghost predicate MayBecome(o: Order, o': Order) {
    && SameTerms(o, o')
    && o'.remaining <= o.remaining
    && MayFollow(o.status, o'.status)
    && (IsFinal(o.status) ==> o' == o)
  }

  ghost predicate Follows(s: State, s': State) {
    && |s.orders| <= |s'.orders|
    && (forall i :: 0 <= i < |s.orders| ==> MayBecome(s.orders[i], s'.orders[i]))
    && s.trades <= s'.trades
    && s.events <= s'.events
  }

  lemma OthersFollow(s: State, c: Command)
    requires !c.Process?
    ensures Follows(s, Apply(s, c))
  {
  }

  lemma ApplyFollows(s: State, openings: seq<Opening>, c: Command)
    requires Sound(s, openings)
    ensures Follows(s, Apply(s, c))
  {
    if !c.Process? {
      OthersFollow(s, c);
    } else if c.id < |s.orders| && s.orders[c.id].status == Queued && ProcessOrder(s, c.id).Ok? {
      ProcessFollows(s, openings, c.id, ProcessOrder(s, c.id).value);
    }
  }

  lemma ProcessFollows(s: State, openings: seq<Opening>, id: OrderId, s': State)
    requires Sound(s, openings) && ProcessOrder(s, id) == Ok(s') && s.orders[id].status == Queued
    ensures Follows(s, s') && s'.orders[id].status != Queued
  {
    ProcessGrowsLogs(s, openings, id, s');
    forall i | 0 <= i < |s.orders|
      ensures MayBecome(s.orders[i], s'.orders[i])
    {
      ProcessMoves(s, openings, id, s', i);
    }
    ProcessMoves(s, openings, id, s', id);
  }

  lemma ProcessGrowsLogs(s: State, openings: seq<Opening>, id: OrderId, s': State)
    requires Sound(s, openings) && ProcessOrder(s, id) == Ok(s') && s.orders[id].status == Queued
    ensures |s'.orders| == |s.orders| && s.trades <= s'.trades && s.events <= s'.events
  {
    ProcessFacts(s, openings, id, s');
  }

  /** A fill moves a resting row on, or leaves it as it is. */
  lemma FilledFollows(o: Order, q: nat)
    requires IsResting(o.status) && q <= o.remaining
    ensures MayFollow(o.status, MakerSettled(o, q).status)
  {
  }

  lemma OthersMove(s: State, openings: seq<Opening>, id: OrderId, s': State, i: OrderId)
    requires Sound(s, openings) && ProcessOrder(s, id) == Ok(s') && s.orders[id].status == Queued
    requires i < |s.orders| && i != id && |s'.orders| == |s.orders|
    ensures s'.orders[i] == s.orders[i] || IsResting(s.orders[i].status)
    ensures MayFollow(s.orders[i].status, s'.orders[i].status)
  {
    var makers := SelectMakers(s.orders, s.orders[id]);
    ProcessedRow(s, openings, id, s', i);
    if i in makers {
      var k :| 0 <= k < |makers| && makers[k] == i;
      assert IsCandidate(s.orders[id], s.orders[makers[k]]);
      assert StatusConsistent(s.orders[i]);
      FilledFollows(s.orders[i], FillAt(s.orders, makers, s.orders[id].remaining, k));
    }
  }

  lemma ProcessMoves(s: State, openings: seq<Opening>, id: OrderId, s': State, i: OrderId)
    requires Sound(s, openings) && ProcessOrder(s, id) == Ok(s') && s.orders[id].status == Queued
    requires i < |s.orders|
    ensures |s'.orders| == |s.orders| && MayBecome(s.orders[i], s'.orders[i])
    ensures i == id ==> s'.orders[i].status != Queued
  {
    OthersShrink(s, openings, id, s', i);
    if i == id {
      TakerMoves(s, openings, id, s');
    } else {
      OthersMove(s, openings, id, s', i);
    }
  }

  lemma TakerMoves(s: State, openings: seq<Opening>, id: OrderId, s': State)
    requires Sound(s, openings) && ProcessOrder(s, id) == Ok(s') && s.orders[id].status == Queued
    ensures |s'.orders| == |s.orders| && s'.orders[id].status != Queued
  {
    ProcessedRow(s, openings, id, s', id);
  }

  lemma FollowsTransitive(a: State, b: State, c: State)
    requires Follows(a, b) && Follows(b, c)
    ensures Follows(a, c)
  {
  }

  /** Over any continuation of a run rows only progress and the logs only grow. */
  lemma {:induction false} RunsOnlyProgress(commands: seq<Command>, more: seq<Command>)
    ensures Follows(Run(commands), Run(commands + more))
    decreases |more|
  {
    if more == [] {
      assert commands + more == commands;
    } else {
      var n := |more| - 1;
      RunsOnlyProgress(commands, more[..n]);
      ReachableIsSound(commands + more[..n]);
      assert (commands + more)[..|commands + more| - 1] == commands + more[..n];
      ApplyFollows(Run(commands + more[..n]), OpeningsOf(commands + more[..n]), more[n]);
      FollowsTransitive(Run(commands), Run(commands + more[..n]), Run(commands + more));
    }
  }

  /** Every reachable order is consistent, and its fills account for what it lost. */
  lemma ReachableOrder(commands: seq<Command>, i: OrderId)
    requires i < |Run(commands).orders|
    ensures var s := Run(commands);
            && StatusConsistent(s.orders[i])
            && s.orders[i].original - s.orders[i].remaining == Executed(s.trades, i)
  {
    ReachableIsSound(commands);
  }

  // ----- redundant deliveries -----

  /** A delivery for an order that has already left the queue. */
  predicate Redundant(s: State, c: Command) {
    (c.Process? || c.Reject?) && c.id < |s.orders| && s.orders[c.id].status != Queued
  }

  lemma RedundantIsNoOp(s: State, c: Command)
    requires Redundant(s, c)
    ensures Apply(s, c) == s
  {
  }

  /** The run without its redundant deliveries. */
  function Erase(commands: seq<Command>): seq<Command> {
    if commands == [] then []
    else
      var n := |commands| - 1;
      Erase(commands[..n]) + if Redundant(Run(commands[..n]), commands[n]) then [] else [commands[n]]
  }

  /** At-least-once delivery settles as exactly-once delivery does. */
  lemma {:induction false} RedundantDeliveriesChangeNothing(commands: seq<Command>)
    ensures Run(Erase(commands)) == Run(commands)
    ensures OpeningsOf(Erase(commands)) == OpeningsOf(commands)
  {
    if commands != [] {
      var n := |commands| - 1;
      RedundantDeliveriesChangeNothing(commands[..n]);
      var front := Erase(commands[..n]);
      if Redundant(Run(commands[..n]), commands[n]) {
        RedundantIsNoOp(Run(commands[..n]), commands[n]);
        assert Erase(commands) == front;
        assert OpeningsOf(commands) == OpeningsOf(commands[..n]);
      } else {
        assert Erase(commands)[..|front|] == front;
      }
    }
  }

  /** The trades made by the n-th command of a run. */
  function TradesOfStep(commands: seq<Command>, n: nat): seq<Trade>
    requires n < |commands|
  {
    NewTrades(Run(commands[..n]), Run(commands[..n + 1]))
  }

  lemma StepOf(commands: seq<Command>, n: nat)
    requires n < |commands|
    ensures Run(commands[..n + 1]) == Apply(Run(commands[..n]), commands[n])
  {
    assert commands[..n + 1][..n] == commands[..n];
  }

  /** A command that makes a trade processes its taker out of the queue. */
  lemma TradingStep(commands: seq<Command>, n: nat, k: nat)
    requires n < |commands| && k < |TradesOfStep(commands, n)|
    ensures var id, before, after := TradesOfStep(commands, n)[k].taker, Run(commands[..n]), Run(commands[..n + 1]);
            && commands[n] == Process(id)
            && id < |before.orders| && before.orders[id].status == Queued
            && id < |after.orders| && after.orders[id].status != Queued
  {
    ReachableIsSound(commands[..n]);
    StepOf(commands, n);
    TradingCommand(Run(commands[..n]), OpeningsOf(commands[..n]), commands[n], k);
  }

  lemma TradingCommand(s: State, openings: seq<Opening>, c: Command, k: nat)
    requires Sound(s, openings) && k < |NewTrades(s, Apply(s, c))|
    ensures var id, s' := NewTrades(s, Apply(s, c))[k].taker, Apply(s, c);
            && c == Process(id)
            && id < |s.orders| && s.orders[id].status == Queued
            && id < |s'.orders| && s'.orders[id].status != Queued
  {
    OnlyMatchingTrades(s, c);
    var s' := Apply(s, c);
    ProcessFollows(s, openings, c.id, s');
    ProcessGrowsLogs(s, openings, c.id, s');
    FillsAtMakerPrice(s, openings, c.id, s', k);
  }

  lemma OnlyMatchingTrades(s: State, c: Command)
    requires NewTrades(s, Apply(s, c)) != []
    ensures c.Process? && c.id < |s.orders| && s.orders[c.id].status == Queued
    ensures ProcessOrder(s, c.id) == Ok(Apply(s, c))
  {
  }

  /** All trades with a given taker come from one transaction. */
  lemma OneTransactionPerTaker(commands: seq<Command>, m: nat, j: nat, n: nat, k: nat)
    requires m < |commands| && j < |TradesOfStep(commands, m)|
    requires n < |commands| && k < |TradesOfStep(commands, n)|
    requires TradesOfStep(commands, m)[j].taker == TradesOfStep(commands, n)[k].taker
    ensures m == n
  {
    TradingStep(commands, m, j);
    TradingStep(commands, n, k);
    if m < n {
      StaysOutOfQueue(commands, m + 1, n, commands[m].id);
    } else if n < m {
      StaysOutOfQueue(commands, n + 1, m, commands[n].id);
    }
  }

  lemma StaysOutOfQueue(commands: seq<Command>, m: nat, n: nat, id: OrderId)
    requires m <= n <= |commands|
    requires id < |Run(commands[..m]).orders| && Run(commands[..m]).orders[id].status != Queued
    ensures id < |Run(commands[..n]).orders| && Run(commands[..n]).orders[id].status != Queued
  {
    assert commands[..m] + commands[m..n] == commands[..n];
    RunsOnlyProgress(commands[..m], commands[m..n]);
    assert MayBecome(Run(commands[..m]).orders[id], Run(commands[..n]).orders[id]);
  }

  /** A delivery that took effect leaves only redundant deliveries of its order behind it. */
  lemma LaterDeliveriesAreRedundant(commands: seq<Command>, m: nat, n: nat)
    requires m < n < |commands|
    requires (commands[m].Process? || commands[m].Reject?) && (commands[n].Process? || commands[n].Reject?)
    requires commands[n].id == commands[m].id < |Run(commands[..m]).orders|
    requires Outcome(Run(commands[..m]), commands[m]).Ok?
    ensures Redundant(Run(commands[..n]), commands[n])
  {
    var s, c := Run(commands[..m]), commands[m];
    ReachableIsSound(commands[..m]);
    StepOf(commands, m);
    if s.orders[c.id].status == Queued {
      if c.Process? {
        ProcessFollows(s, OpeningsOf(commands[..m]), c.id, Apply(s, c));
      }
    }
    ApplyFollows(s, OpeningsOf(commands[..m]), c);
    StaysOutOfQueue(commands, m + 1, n, c.id);
  }

  // ----- at most one effective delivery -----

  /** The n-th command is a delivery of an existing order that does not throw. */
  predicate TakesEffect(commands: seq<Command>, n: nat) {
    && n < |commands|
    && (commands[n].Process? || commands[n].Reject?)
    && commands[n].id < |Run(commands[..n]).orders|
    && Outcome(Run(commands[..n]), commands[n]).Ok?
  }

  lemma {:induction false} ErasedHasNothingRedundant(commands: seq<Command>, n: nat)
    requires n < |Erase(commands)|
    ensures !Redundant(Run(Erase(commands)[..n]), Erase(commands)[n])
  {
    var last := |commands| - 1;
    var front := Erase(commands[..last]);
    if n < |front| {
      ErasedHasNothingRedundant(commands[..last], n);
      assert Erase(commands)[..n] == front[..n];
    } else {
      assert Erase(commands)[..n] == front;
      RedundantDeliveriesChangeNothing(commands[..last]);
    }
  }

  /** Once the redundant deliveries are erased, no order has two deliveries that take effect. */
  lemma OneEffectiveDelivery(commands: seq<Command>, m: nat, n: nat)
    requires TakesEffect(Erase(commands), m) && TakesEffect(Erase(commands), n)
    requires Erase(commands)[m].id == Erase(commands)[n].id
    ensures m == n
  {
    if m < n {
      LaterDeliveriesAreRedundant(Erase(commands), m, n);
      ErasedHasNothingRedundant(commands, n);
    } else if n < m {
      LaterDeliveriesAreRedundant(Erase(commands), n, m);
      ErasedHasNothingRedundant(commands, m);
    }
  }
}
