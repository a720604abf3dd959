/** How every order of a run came by its terms and its status. */
module OrderHistories {
  import opened Outcomes
  import opened Model
  import opened OrderBook
  import opened Engine
  import opened Settlement
  import opened Market
  import opened Reachability
  import opened Lifecycle
  import opened OrderRequests

  /** The k-th command of the run succeeded. */
  predicate Succeeds(commands: seq<Command>, k: nat) {
    k < |commands| && Outcome(Run(commands[..k]), commands[k]).Ok?
  }

  // ----- terms -----

  /** The k-th command created order `i` with the terms of row `o`. */
  ghost predicate AskedFor(commands: seq<Command>, k: nat, i: OrderId, o: Order) {
    && Succeeds(commands, k)
    && |Run(commands[..k]).orders| == i
    && commands[k].Create?
    && commands[k].user == o.user && commands[k].side == o.side && commands[k].sequence == o.sequence
    && commands[k].amount == o.original && commands[k].price == o.price
  }

  lemma Longer(commands: seq<Command>, k: nat)
    requires k < |commands| - 1
    ensures commands[..|commands| - 1][..k] == commands[..k]
    ensures Succeeds(commands[..|commands| - 1], k) == Succeeds(commands, k)
  {
  }

  lemma OnlyCreationsAdd(s: State, c: Command)
    requires |s.orders| < |Apply(s, c).orders|
    ensures c.Create? && Outcome(s, c).Ok?
    ensures Placed(s, Apply(s, c), c.user, c.side, c.amount, c.price, c.sequence)
  {
    if c.Create? {
      CreationPlaces(s, c.user, c.side, c.amount, c.price, c.sequence);
    }
  }

  /** Every order of a run has the owner, side, price, amount and number some creation asked for. */
  lemma {:induction false} OrdersAreAsAskedFor(commands: seq<Command>, i: OrderId) returns (k: nat)
    requires i < |Run(commands).orders|
    ensures AskedFor(commands, k, i, Run(commands).orders[i])
  {
    var n := |commands| - 1;
    var s := Run(commands[..n]);
    ReachableIsSound(commands[..n]);
    ApplyFollows(s, OpeningsOf(commands[..n]), commands[n]);
    if i < |s.orders| {
      k := OrdersAreAsAskedFor(commands[..n], i);
      Longer(commands, k);
      assert MayBecome(s.orders[i], Run(commands).orders[i]);
    } else {
      OnlyCreationsAdd(s, commands[n]);
      k := n;
    }
  }

  // ----- final statuses -----

  /** The k-th command took order `i` out of the queue or off the book, as its owner asked. */
  predicate CancelledAt(commands: seq<Command>, k: nat, i: OrderId, owner: UserId) {
    Succeeds(commands, k) && commands[k] == Cancel(owner, i)
  }

  /** The k-th command rejected order `i`, which was queued. */
  predicate RejectedAt(commands: seq<Command>, k: nat, i: OrderId) {
    Succeeds(commands, k) && commands[k] == Reject(i) && IsQueuedIn(Run(commands[..k]), i)
  }

  /** The k-th command matched order `i`, which was queued. */
  predicate MatchedAt(commands: seq<Command>, k: nat, i: OrderId) {
    Succeeds(commands, k) && commands[k] == Process(i) && IsQueuedIn(Run(commands[..k]), i)
  }

  predicate IsQueuedIn(s: State, i: OrderId) {
    i < |s.orders| && s.orders[i].status == Queued
  }

  ghost predicate WasCancelled(commands: seq<Command>, i: OrderId, owner: UserId) {
    exists k: nat :: CancelledAt(commands, k, i, owner)
  }

  ghost predicate WasRejected(commands: seq<Command>, i: OrderId) {
    exists k: nat :: RejectedAt(commands, k, i)
  }

  ghost predicate WasMatched(commands: seq<Command>, i: OrderId) {
    exists k: nat :: MatchedAt(commands, k, i)
  }

  /** Matching writes no final status but Filled, and takes exactly its taker out of the queue. */
  lemma MatchingStatuses(s: State, openings: seq<Opening>, id: OrderId, s': State, i: OrderId)
    requires Sound(s, openings) && ProcessOrder(s, id) == Ok(s') && s.orders[id].status == Queued && i < |s.orders|
    ensures |s'.orders| == |s.orders|
    ensures i == id ==> s'.orders[i].status in {Open, PartiallyFilled, Filled}
    ensures i != id ==> s'.orders[i].status == s.orders[i].status
                        || (IsResting(s.orders[i].status) && s'.orders[i].status in {PartiallyFilled, Filled})
  {
    var makers := SelectMakers(s.orders, s.orders[id]);
    ProcessedRow(s, openings, id, s', i);
    if i in makers {
      var k :| 0 <= k < |makers| && makers[k] == i;
      assert IsCandidate(s.orders[id], s.orders[makers[k]]);
    }
  }

  /** What one command does to the status of an order there is. */
  ghost predicate StatusStep(s: State, c: Command, s': State, i: OrderId)
    requires i < |s.orders| && i < |s'.orders|
  {
    var status, status', ok := s.orders[i].status, s'.orders[i].status, Outcome(s, c).Ok?;
    && (status' == Cancelled <==> status == Cancelled || (ok && c == Cancel(s.orders[i].user, i)))
    && (status' == Rejected <==> status == Rejected || (ok && c == Reject(i) && status == Queued))
    && (status' == Queued <==>
        status == Queued && !(ok && (c == Cancel(s.orders[i].user, i) || c == Reject(i) || c == Process(i))))
  }

  lemma ApplySteps(s: State, openings: seq<Opening>, c: Command, i: OrderId)
    requires Sound(s, openings) && i < |s.orders|
    ensures i < |Apply(s, c).orders| && StatusStep(s, c, Apply(s, c), i)
  {
    if c.Process? {
      ProcessSteps(s, openings, c.id, i);
    } else {
      OthersStep(s, c, i);
    }
  }

  lemma ProcessSteps(s: State, openings: seq<Opening>, id: OrderId, i: OrderId)
    requires Sound(s, openings) && i < |s.orders|
    ensures i < |Apply(s, Process(id)).orders| && StatusStep(s, Process(id), Apply(s, Process(id)), i)
  {
    if IsQueuedIn(s, id) && ProcessOrder(s, id).Ok? {
      MatchingStatuses(s, openings, id, ProcessOrder(s, id).value, i);
    }
  }

  lemma OthersStep(s: State, c: Command, i: OrderId)
    requires !c.Process? && i < |s.orders|
    ensures i < |Apply(s, c).orders| && StatusStep(s, c, Apply(s, c), i)
  {
    match c
    case OpenAccount(_) =>
    case Create(user, side, amount, price, sequence) => CreationPlaces(s, user, side, amount, price, sequence);
    case Cancel(user, id) => CancellationEnds(s, user, id);
    case Reject(id) => RejectionEnds(s, id);
  }

  lemma OneMoreCommand(commands: seq<Command>, i: OrderId, owner: UserId)
    requires commands != []
    ensures var n := |commands| - 1;
            && (WasCancelled(commands, i, owner) <==>
                WasCancelled(commands[..n], i, owner) || CancelledAt(commands, n, i, owner))
            && (WasRejected(commands, i) <==> WasRejected(commands[..n], i) || RejectedAt(commands, n, i))
            && (WasMatched(commands, i) <==> WasMatched(commands[..n], i) || MatchedAt(commands, n, i))
  {
    var n := |commands| - 1;
    forall k: nat
      ensures CancelledAt(commands, k, i, owner) <==>
              CancelledAt(commands[..n], k, i, owner) || (k == n && CancelledAt(commands, n, i, owner))
      ensures RejectedAt(commands, k, i) <==>
              RejectedAt(commands[..n], k, i) || (k == n && RejectedAt(commands, n, i))
      ensures MatchedAt(commands, k, i) <==>
              MatchedAt(commands[..n], k, i) || (k == n && MatchedAt(commands, n, i))
    {
      if k < n {
        Longer(commands, k);
      }
    }
  }

  /** Nothing names an order before there is one. */
  lemma NotYetCreated(commands: seq<Command>, i: OrderId, owner: UserId)
    requires |Run(commands).orders| <= i
    ensures !WasCancelled(commands, i, owner) && !WasRejected(commands, i) && !WasMatched(commands, i)
  {
    forall k: nat | Succeeds(commands, k)
      ensures !CancelledAt(commands, k, i, owner) && !RejectedAt(commands, k, i) && !MatchedAt(commands, k, i)
    {
      assert commands[..k] + commands[k..] == commands;
      RunsOnlyProgress(commands[..k], commands[k..]);
    }
  }

  /**
   In every run an order is cancelled if and only if its owner cancelled it, rejected if and
   only if a rejection met it in the queue, and out of the queue for no other reason than these
   and its own matching.
   */
  lemma {:induction false} StatusesComeFromCommands(commands: seq<Command>, i: OrderId)
    requires i < |Run(commands).orders|
    ensures var o := Run(commands).orders[i];
            && (o.status == Cancelled <==> WasCancelled(commands, i, o.user))
            && (o.status == Rejected <==> WasRejected(commands, i))
            && (o.status != Queued <==>
                WasCancelled(commands, i, o.user) || WasRejected(commands, i) || WasMatched(commands, i))
  {
    var n := |commands| - 1;
    var s, o := Run(commands[..n]), Run(commands).orders[i];
    ReachableIsSound(commands[..n]);
    OneMoreCommand(commands, i, o.user);
    if i < |s.orders| {
      ApplyFollows(s, OpeningsOf(commands[..n]), commands[n]);
      assert MayBecome(s.orders[i], o);
      StatusesComeFromCommands(commands[..n], i);
      ApplySteps(s, OpeningsOf(commands[..n]), commands[n], i);
    } else {
      NotYetCreated(commands[..n], i, o.user);
      OnlyCreationsAdd(s, commands[n]);
    }
  }
}
