/** The queue's processor: the retry budget, and rejection once it is spent. */
module Processor {
  import opened Outcomes
  import opened Model
  import opened Engine
  import opened Wallets
  import MatchingService

  datatype JobEnd = Done | Retried | Failed

  predicate IsFinalAttempt(attemptsMade: nat, attempts: nat) {
    attempts <= attemptsMade + 1
  }

  /** What one delivery of an order's job does, `attemptsMade` deliveries having failed before. */
  function Delivered(s: State, id: OrderId, attemptsMade: nat, attempts: nat): (JobEnd, State) {
    var processed := Engine.ProcessOrder(s, id);
    if processed.Ok? then (Done, processed.value)
    else if !IsFinalAttempt(attemptsMade, attempts) then (Retried, s)
    else
      var rejected := Engine.RejectOrder(s, id);
      if rejected.Ok? then (Done, rejected.value) else (Failed, s)
  }

  /** process: a throwing transaction has rolled back before the next one starts. */
  method ProcessJob(tx: Database, id: OrderId, attemptsMade: nat, attempts: nat) returns (end: JobEnd)
    requires tx.Valid()
    modifies tx
    ensures (end, tx.Snapshot()) == Delivered(old(tx.Snapshot()), id, attemptsMade, attempts)
    ensures var processed, rejected :=
              Engine.ProcessOrder(old(tx.Snapshot()), id), Engine.RejectOrder(old(tx.Snapshot()), id);
            && (processed.Ok? ==> end == Done && tx.Snapshot() == processed.value)
            && (end == Retried <==> processed.Err? && attemptsMade + 1 < attempts)
            && (end == Failed <==> processed.Err? && attempts <= attemptsMade + 1 && rejected.Err?)
            && (processed.Err? && end == Done ==> tx.Snapshot() == rejected.value)
            && (end != Done ==> tx.Snapshot() == old(tx.Snapshot()))
  {
    var before := tx.Snapshot();
    var processed := MatchingService.ProcessOrder(tx, id);
    if processed.Ok? {
      return Done;
    }
    assert tx.Snapshot() == before;
    if !IsFinalAttempt(attemptsMade, attempts) {
      return Retried;
    }
    var rejected := MatchingService.RejectOrder(tx, id);
    if rejected.Err? {
      return Failed;
    }
    return Done;
  }

  /** All deliveries of one job, retried until it is done or its attempts are spent. */
  function Deliveries(s: State, id: OrderId, attemptsMade: nat, attempts: nat): (r: (JobEnd, State))
    ensures !r.0.Retried?
    decreases attempts - attemptsMade
  {
    var (end, s') := Delivered(s, id, attemptsMade, attempts);
    if end.Retried? then Deliveries(s', id, attemptsMade + 1, attempts) else (end, s')
  }

  /** How many deliveries that takes; each of them tries to match once. */
  function DeliveryCount(s: State, id: OrderId, attemptsMade: nat, attempts: nat): nat
    decreases attempts - attemptsMade
  {
    var (end, s') := Delivered(s, id, attemptsMade, attempts);
    1 + if end.Retried? then DeliveryCount(s', id, attemptsMade + 1, attempts) else 0
  }

  /** Matching that never succeeds is tried exactly as often as there are attempts left, and always once. */
  lemma {:induction false} EveryAttemptIsUsed(s: State, id: OrderId, attemptsMade: nat, attempts: nat)
    ensures DeliveryCount(s, id, attemptsMade, attempts)
         == (if ProcessOrder(s, id).Ok? || attempts <= attemptsMade then 1 else attempts - attemptsMade)
    decreases attempts - attemptsMade
  {
    if ProcessOrder(s, id).Err? && !IsFinalAttempt(attemptsMade, attempts) {
      EveryAttemptIsUsed(s, id, attemptsMade + 1, attempts);
    }
  }

  /**
   A job left to itself ends its order one way: matched if matching succeeds, else rejected
   with its funds released; a retry meets the state the first attempt met.
   */
  lemma {:induction false} JobSettlesOrRejects(s: State, id: OrderId, attemptsMade: nat, attempts: nat)
    ensures var (end, s') := Deliveries(s, id, attemptsMade, attempts);
            && (ProcessOrder(s, id).Ok? ==> end == Done && Ok(s') == ProcessOrder(s, id))
            && (ProcessOrder(s, id).Err? && RejectOrder(s, id).Ok? ==> end == Done && Ok(s') == RejectOrder(s, id))
            && (end == Done && id < |s.orders| ==> id < |s'.orders| && s'.orders[id].status != Queued)
            && (end == Failed <==> ProcessOrder(s, id).Err? && RejectOrder(s, id).Err?)
    decreases attempts - attemptsMade
  {
    if ProcessOrder(s, id).Err? && !IsFinalAttempt(attemptsMade, attempts) {
      JobSettlesOrRejects(s, id, attemptsMade + 1, attempts);
    }
  }
}
