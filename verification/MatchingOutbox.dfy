/** The matching outbox, its dispatcher, and the job queue it feeds. Times are in milliseconds. */
module MatchingOutbox {
  import opened Outcomes
  import opened Model
  import opened OutboxClaims

  const CLAIM_TIMEOUT: nat := 30_000
  const RETRY_DELAY: nat := 2_000
  const BATCH_SIZE: nat := 50
  const ATTEMPTS: nat := 3

  /** A row of order_matching_outbox; there is one per order, named by the order. */
  datatype IntentRow = IntentRow(
    attempts: nat, token: Option<Token>, claimedAt: Option<Time>, nextAttemptAt: Option<Time>)

  type Intents = map<OrderId, IntentRow>

  const NEW_INTENT := IntentRow(0, None, None, None)

  datatype JobState =
    | Queueing             // waiting or delayed
    | Active(done: bool)   // `done`: processOrder, or the rejection, has returned
    | Rejecting            // the final attempt threw
    | Completed
    | Failed

  datatype Job = Job(state: JobState, attemptsMade: nat)

  type Jobs = map<OrderId, Job>

  predicate Claimable(r: IntentRow, now: Time) {
    && (r.claimedAt.None? || r.claimedAt.value + CLAIM_TIMEOUT < now)
    && (r.nextAttemptAt.None? || r.nextAttemptAt.value <= now)
  }

  /** No lease of the last thirty seconds, and no retry still ahead. */
  ghost predicate IsDue(r: IntentRow, now: Time) {
    && (r.claimedAt.Some? ==> r.claimedAt.value + 30_000 < now)
    && (r.nextAttemptAt.Some? ==> r.nextAttemptAt.value <= now)
  }

  /** The intents a claim may take. */
  function Candidates(rows: Intents, locked: set<OrderId>, now: Time): set<OrderId> {
    set id | id in rows && id !in locked && Claimable(rows[id], now)
  }

  /** The oldest candidates, in numbers. */
  lemma OldestAreDue(rows: Intents, locked: set<RowId>, now: Time, batch: seq<RowId>)
    requires Distinct(batch) && AreOldest(Candidates(rows, locked, now), Ids(batch), BATCH_SIZE)
    ensures |batch| <= 50 && forall id :: id in batch ==> id in rows && id !in locked && IsDue(rows[id], now)
    ensures forall id :: id in rows && id !in locked && IsDue(rows[id], now) && id !in batch ==>
              |batch| == 50 && forall taken :: taken in batch ==> taken < id
  {
    SizeOfBatch(batch);
    forall id | id in batch
      ensures id in rows && id !in locked && IsDue(rows[id], now)
    {
      assert id in Ids(batch);
    }
    forall id | id in rows && id !in locked && IsDue(rows[id], now) && id !in batch
      ensures |batch| == 50 && forall taken :: taken in batch ==> taken < id
    {
      assert id in Candidates(rows, locked, now) - Ids(batch);
      assert forall taken :: taken in batch ==> taken in Ids(batch);
    }
  }

  function ClaimedIntents(rows: Intents, ids: set<OrderId>, token: Token, now: Time): Intents
    requires ids <= rows.Keys
  {
    rows + map id | id in ids :: rows[id].(claimedAt := Some(now), token := Some(token))
  }

  predicate HeldBy(rows: Intents, id: OrderId, token: Token) {
    id in rows && rows[id].token == Some(token)
  }

  function Removed(rows: Intents, id: OrderId, token: Token): Intents {
    if HeldBy(rows, id, token) then rows - {id} else rows
  }

  function ReleasedIntent(r: IntentRow, now: Time): IntentRow {
    IntentRow(r.attempts + 1, None, None, Some(now + RETRY_DELAY))
  }

  function Released(rows: Intents, id: OrderId, token: Token, now: Time): Intents {
    if HeldBy(rows, id, token) then rows[id := ReleasedIntent(rows[id], now)] else rows
  }

  /** Adding a job whose ID is still known changes nothing. */
  function Added(jobs: Jobs, id: OrderId): Jobs {
    if id in jobs then jobs else jobs[id := Job(Queueing, 0)]
  }

  /** The outbox table and the queue, as the dispatcher's statements and calls change them. */
  class Outbox {
    var rows: Intents
    var jobs: Jobs

    constructor ()
      ensures rows == map[] && jobs == map[]
    {
      rows, jobs := map[], map[];
    }

    method ClaimNextBatch(token: Token, now: Time, locked: set<OrderId>) returns (batch: seq<OrderId>)
      modifies this`rows
      ensures Distinct(batch) && AreOldest(Candidates(old(rows), locked, now), Ids(batch), BATCH_SIZE)
      ensures rows == ClaimedIntents(old(rows), Ids(batch), token, now)
      ensures |batch| <= 50
      ensures forall id :: id in batch ==> id in old(rows) && id !in locked && IsDue(old(rows)[id], now)
      ensures forall id :: id in old(rows) && id !in locked && IsDue(old(rows)[id], now) && id !in batch ==>
                |batch| == 50 && forall taken :: taken in batch ==> taken < id
      ensures rows.Keys == old(rows).Keys
      ensures forall id :: id in rows ==>
                rows[id] == if id in batch then old(rows)[id].(claimedAt := Some(now), token := Some(token))
                            else old(rows)[id]
    {
      batch := TakeOldest(Candidates(rows, locked, now), BATCH_SIZE);
      OldestAreDue(rows, locked, now, batch);
      rows := ClaimedIntents(rows, Ids(batch), token, now);
    }

    /** A job the queue still knows keeps its state and its attempts. */
    method EnqueueProcessOrder(id: OrderId)
      modifies this`jobs
      ensures jobs.Keys == old(jobs).Keys + {id}
      ensures forall known :: known in old(jobs) ==> jobs[known] == old(jobs)[known]
      ensures id !in old(jobs) ==> jobs[id] == Job(Queueing, 0)
      ensures jobs == Added(old(jobs), id)
    {
      if id !in jobs {
        jobs := jobs[id := Job(Queueing, 0)];
      }
    }

    /** Only the holder of the token removes the intent. */
    method RemoveClaimedRow(id: OrderId, token: Token)
      modifies this`rows
      ensures !HeldBy(old(rows), id, token) ==> rows == old(rows)
      ensures HeldBy(old(rows), id, token) ==> rows.Keys == old(rows).Keys - {id}
      ensures forall other :: other in rows ==> rows[other] == old(rows)[other]
      ensures rows == Removed(old(rows), id, token)
    {
      if id in rows && rows[id].token == Some(token) {
        rows := rows - {id};
      }
    }

    /** Only the holder of the token ends the lease. */
    method ReleaseClaim(id: OrderId, token: Token, now: Time)
      modifies this`rows
      ensures !HeldBy(old(rows), id, token) ==> rows == old(rows)
      ensures rows.Keys == old(rows).Keys
      ensures forall other :: other in rows && other != id ==> rows[other] == old(rows)[other]
      ensures HeldBy(old(rows), id, token) ==>
        && rows[id].attempts == old(rows)[id].attempts + 1
        && rows[id].token == None && rows[id].claimedAt == None
        && rows[id].nextAttemptAt == Some(now + 2_000)
      ensures rows == Released(old(rows), id, token, now)
    {
      if id in rows && rows[id].token == Some(token) {
        rows := rows[id := IntentRow(rows[id].attempts + 1, None, None, Some(now + RETRY_DELAY))];
      }
    }
  }

  // ----- dispatching -----

  /** What happens to one claimed intent. */
  datatype Delivery =
    | HandedOver                                  // enqueued and removed
    | NotEnqueued(added: bool, released: bool)    // enqueueing threw, perhaps after the job was added
    | NotRemoved(removed: bool, released: bool)   // removing threw, perhaps after it took effect

  predicate JobAdded(d: Delivery) {
    !d.NotEnqueued? || d.added
  }

  predicate IntentGone(d: Delivery) {
    d.HandedOver? || (d.NotRemoved? && d.removed)
  }

  predicate AllHandedOver(ids: set<OrderId>, deliveries: OrderId -> Delivery) {
    forall id :: id in ids ==> deliveries(id) == HandedOver
  }

  /** One claimed intent: enqueue its order, remove it, and release it if either throws. */
  function DeliveredRow(rows: Intents, id: OrderId, token: Token, now: Time, d: Delivery): Intents {
    var rows' := if IntentGone(d) then Removed(rows, id, token) else rows;
    if !d.HandedOver? && d.released then Released(rows', id, token, now) else rows'
  }

  function DeliveredJob(jobs: Jobs, id: OrderId, d: Delivery): Jobs {
    if JobAdded(d) then Added(jobs, id) else jobs
  }

  method DispatchRow(outbox: Outbox, id: OrderId, token: Token, now: Time, d: Delivery) returns (failed: bool)
    modifies outbox
    ensures failed <==> d != HandedOver
    ensures outbox.rows == DeliveredRow(old(outbox.rows), id, token, now, d)
    ensures outbox.jobs == DeliveredJob(old(outbox.jobs), id, d)
  {
    if JobAdded(d) {
      outbox.EnqueueProcessOrder(id);
    }
    if IntentGone(d) {
      outbox.RemoveClaimedRow(id, token);
    }
    failed := !d.HandedOver?;
    if failed && d.released {
      outbox.ReleaseClaim(id, token, now);
    }
  }

  /** The intents of `batch` each ended by its own delivery, and the jobs that adds. */
  ghost function DeliveredRows(before: Intents, batch: set<OrderId>, now: Time,
          deliveries: OrderId -> Delivery): Intents {
    map id | id in before && !(id in batch && IntentGone(deliveries(id))) ::
      if id in batch && !deliveries(id).HandedOver? && deliveries(id).released then ReleasedIntent(before[id], now)
      else before[id]
  }

  ghost function DeliveredJobs(before: Jobs, batch: set<OrderId>, deliveries: OrderId -> Delivery): Jobs {
    (map id | id in batch && JobAdded(deliveries(id)) :: Job(Queueing, 0)) + before
  }

  lemma DeliverRow(before: Intents, batch: set<OrderId>, id: OrderId, token: Token, now: Time,
          deliveries: OrderId -> Delivery)
    requires id !in batch && HeldBy(before, id, token)
    ensures DeliveredRow(DeliveredRows(before, batch, now, deliveries), id, token, now, deliveries(id))
         == DeliveredRows(before, batch + {id}, now, deliveries)
  {
  }

  lemma DeliverJob(before: Jobs, batch: set<OrderId>, id: OrderId, deliveries: OrderId -> Delivery)
    ensures DeliveredJob(DeliveredJobs(before, batch, deliveries), id, deliveries(id))
         == DeliveredJobs(before, batch + {id}, deliveries)
  {
  }

  /** One more row of the batch. */
  lemma DeliverNext(rows: Intents, jobs: Jobs, batch: seq<OrderId>, k: nat, token: Token, now: Time,
          deliveries: OrderId -> Delivery)
    requires k < |batch| && Distinct(batch) && HeldBy(rows, batch[k], token)
    ensures var ids, ids', d := Ids(batch[..k]), Ids(batch[..k + 1]), deliveries(batch[k]);
            && DeliveredRow(DeliveredRows(rows, ids, now, deliveries), batch[k], token, now, d)
               == DeliveredRows(rows, ids', now, deliveries)
            && DeliveredJob(DeliveredJobs(jobs, ids, deliveries), batch[k], d) == DeliveredJobs(jobs, ids', deliveries)
            && (AllHandedOver(ids', deliveries) <==> AllHandedOver(ids, deliveries) && d == HandedOver)
  {
    assert batch[..k + 1] == batch[..k] + [batch[k]];
    assert Ids(batch[..k + 1]) == Ids(batch[..k]) + {batch[k]};
    DeliverRow(rows, Ids(batch[..k]), batch[k], token, now, deliveries);
    DeliverJob(jobs, Ids(batch[..k]), batch[k], deliveries);
  }

  /** A failed intent: released, with one more attempt counted and a retry in two seconds, or still leased. */
  ghost predicate HasEnded(r: IntentRow, r': IntentRow, now: Time, released: bool) {
    if released
    then r' == IntentRow(r.attempts + 1, None, None, Some(now + 2_000))
    else r' == r
  }

  /** How one intent of the batch ended. */
  ghost predicate IntentEnded(rows: Intents, rows': Intents, jobs': Jobs, id: OrderId, now: Time, d: Delivery) {
    id in rows
    && match d
       case HandedOver => id !in rows' && id in jobs'
       case NotEnqueued(added, released) =>
         id in rows' && HasEnded(rows[id], rows'[id], now, released) && (added ==> id in jobs')
       case NotRemoved(removed, released) =>
         id in jobs'
         && if removed then id !in rows' else id in rows' && HasEnded(rows[id], rows'[id], now, released)
  }

  /** Each intent of the batch ended its own way; other intents and the jobs known before are as they were. */
  ghost predicate BatchEnded(rows: Intents, jobs: Jobs, rows': Intents, jobs': Jobs, batch: seq<OrderId>, now: Time,
          deliveries: OrderId -> Delivery)
  {
    && rows'.Keys <= rows.Keys
    && (forall id :: id in rows && id !in batch ==> id in rows' && rows'[id] == rows[id])
    && (forall id :: id in batch ==> IntentEnded(rows, rows', jobs', id, now, deliveries(id)))
    && (forall id :: id in jobs ==> id in jobs' && jobs'[id] == jobs[id])
    && (forall id :: id in jobs' && id !in jobs ==>
       id in batch && !(deliveries(id).NotEnqueued? && !deliveries(id).added) && jobs'[id] == Job(Queueing, 0))
  }

  lemma DeliveriesEndBatch(rows: Intents, jobs: Jobs, batch: seq<OrderId>, token: Token, now: Time,
          deliveries: OrderId -> Delivery)
    requires forall id :: id in batch ==> HeldBy(rows, id, token)
    ensures BatchEnded(rows, jobs, DeliveredRows(rows, Ids(batch), now, deliveries),
                       DeliveredJobs(jobs, Ids(batch), deliveries), batch, now, deliveries)
  {
    var rows', jobs' := DeliveredRows(rows, Ids(batch), now, deliveries), DeliveredJobs(jobs, Ids(batch), deliveries);
    forall id | id in batch
      ensures IntentEnded(rows, rows', jobs', id, now, deliveries(id))
    {
      assert id in Ids(batch) && HeldBy(rows, id, token);
    }
  }

  /** The loop over a claimed batch: a failed intent is released and the others still go out. */
  method DispatchBatch(outbox: Outbox, batch: seq<OrderId>, token: Token, now: Time, deliveries: OrderId -> Delivery)
    returns (hasFailedDispatch: bool)
    requires Distinct(batch) && forall id :: id in batch ==> HeldBy(outbox.rows, id, token)
    modifies outbox
    ensures hasFailedDispatch <==> !AllHandedOver(Ids(batch), deliveries)
    ensures outbox.rows == DeliveredRows(old(outbox.rows), Ids(batch), now, deliveries)
    ensures outbox.jobs == DeliveredJobs(old(outbox.jobs), Ids(batch), deliveries)
    ensures BatchEnded(old(outbox.rows), old(outbox.jobs), outbox.rows, outbox.jobs, batch, now, deliveries)
  {
    hasFailedDispatch := false;
    ghost var rows, jobs := outbox.rows, outbox.jobs;
    var k := 0;
    while k < |batch|
      invariant k <= |batch|
      invariant outbox.rows == DeliveredRows(rows, Ids(batch[..k]), now, deliveries)
      invariant outbox.jobs == DeliveredJobs(jobs, Ids(batch[..k]), deliveries)
      invariant hasFailedDispatch <==> !AllHandedOver(Ids(batch[..k]), deliveries)
    {
      DeliverNext(rows, jobs, batch, k, token, now, deliveries);
      var failed := DispatchRow(outbox, batch[k], token, now, deliveries(batch[k]));
      hasFailedDispatch := hasFailedDispatch || failed;
      k := k + 1;
    }
    assert batch[..k] == batch;
    DeliveriesEndBatch(rows, jobs, batch, token, now, deliveries);
  }

  /** No intent disappears but for a job, and only candidates change. */
  ghost predicate NoIntentLost(rows: Intents, later: Intents, jobs: Jobs, candidates: set<OrderId>) {
    && later.Keys <= rows.Keys
    && (forall id :: id in rows && id !in later ==> id in jobs)
    && (forall id :: id in rows && id !in candidates ==> id in later && later[id] == rows[id])
  }

  /**
   Of the candidates the loop handed over its first `rounds` batches and stopped after the
   next one, `batch`, which did not go through as a whole; later candidates keep their
   intents and got no job.
   */
  ghost predicate StoppedAt(before: Intents, jobs: Jobs, rows: Intents, jobs': Jobs, candidates: set<OrderId>,
          rounds: nat, done: set<OrderId>, batch: set<OrderId>, firstToken: Token, token: Token, now: Time,
          deliveries: OrderId -> Delivery)
  {
    && token == firstToken + rounds
    && AreOldest(candidates, done, rounds * BATCH_SIZE)
    && AreOldest(candidates - done, batch, BATCH_SIZE) && batch <= (before - done).Keys
    && AllHandedOver(done, deliveries) && !AllHandedOver(batch, deliveries)
    && rows == DeliveredRows(ClaimedIntents(before - done, batch, token, now), batch, now, deliveries)
    && jobs' == DeliveredJobs(jobs, done + batch, deliveries)
  }

  ghost predicate Stopped(before: Intents, jobs: Jobs, rows: Intents, jobs': Jobs, candidates: set<OrderId>,
          firstToken: Token, now: Time, deliveries: OrderId -> Delivery)
  {
    exists rounds, done, batch, token ::
      StoppedAt(before, jobs, rows, jobs', candidates, rounds, done, batch, firstToken, token, now, deliveries)
  }

  /** The dispatch loop before each round: `done` is handed over and `batch` is claimed. */
  ghost predicate RoundStarts(before: Intents, jobs: Jobs, rows: Intents, jobs': Jobs, candidates: set<OrderId>,
          rounds: nat, done: set<OrderId>, batch: seq<OrderId>, firstToken: Token, token: Token, now: Time,
          deliveries: OrderId -> Delivery)
  {
    && candidates <= before.Keys && token == firstToken + rounds
    && AreOldest(candidates, done, rounds * BATCH_SIZE)
    && AreOldest(candidates - done, Ids(batch), BATCH_SIZE) && Distinct(batch)
    && AllHandedOver(done, deliveries)
    && (forall id :: id in batch ==> HeldBy(rows, id, token))
    && Ids(batch) <= (before - done).Keys
    && rows == ClaimedIntents(before - done, Ids(batch), token, now)
    && jobs' == DeliveredJobs(jobs, done, deliveries)
  }

  lemma ClaimStartsRound(before: Intents, jobs: Jobs, jobs': Jobs, candidates: set<OrderId>, rounds: nat,
          done: set<OrderId>, batch: seq<OrderId>, firstToken: Token, token: Token, now: Time, locked: set<OrderId>,
          deliveries: OrderId -> Delivery)
    requires token == firstToken + rounds && candidates == Candidates(before, locked, now)
    requires AreOldest(candidates, done, rounds * BATCH_SIZE) && AllHandedOver(done, deliveries) && Distinct(batch)
    requires AreOldest(Candidates(before - done, locked, now), Ids(batch), BATCH_SIZE)
    requires jobs' == DeliveredJobs(jobs, done, deliveries)
    ensures Ids(batch) <= (before - done).Keys
    ensures RoundStarts(before, jobs, ClaimedIntents(before - done, Ids(batch), token, now), jobs', candidates, rounds,
                        done, batch, firstToken, token, now, deliveries)
  {
    assert Candidates(before - done, locked, now) == candidates - done;
  }

  lemma JobsAddUp(jobs: Jobs, done: set<OrderId>, batch: set<OrderId>, deliveries: OrderId -> Delivery)
    ensures DeliveredJobs(DeliveredJobs(jobs, done, deliveries), batch, deliveries)
         == DeliveredJobs(jobs, done + batch, deliveries)
  {
  }

  lemma RowsOfRound(before: Intents, done: set<OrderId>, batch: set<OrderId>, token: Token, now: Time,
          deliveries: OrderId -> Delivery)
    requires batch <= before.Keys - done
    ensures var later := DeliveredRows(ClaimedIntents(before - done, batch, token, now), batch, now, deliveries);
            && later.Keys <= before.Keys - done
            && (forall id :: id in before && id !in later ==> id in done || (id in batch && IntentGone(deliveries(id))))
            && (forall id :: id in before && id !in done && id !in batch ==> id in later && later[id] == before[id])
            && (AllHandedOver(batch, deliveries) ==> later == before - (done + batch))
  {
  }

  /** An intent a round removes has its job, now or from an earlier round. */
  lemma RoundLosesNothing(before: Intents, jobs: Jobs, done: set<OrderId>, batch: set<OrderId>,
          candidates: set<OrderId>, token: Token, now: Time, deliveries: OrderId -> Delivery)
    requires batch <= before.Keys - done && done + batch <= candidates && AllHandedOver(done, deliveries)
    ensures NoIntentLost(before,
                         DeliveredRows(ClaimedIntents(before - done, batch, token, now), batch, now, deliveries),
                         DeliveredJobs(jobs, done + batch, deliveries), candidates)
  {
  }

  lemma RoundEnds(before: Intents, jobs: Jobs, rows: Intents, jobs': Jobs, candidates: set<OrderId>, rounds: nat,
          done: set<OrderId>, batch: seq<OrderId>, firstToken: Token, token: Token, now: Time,
          deliveries: OrderId -> Delivery)
    requires RoundStarts(before, jobs, rows, jobs', candidates, rounds, done, batch, firstToken, token, now, deliveries)
    ensures Ids(batch) <= candidates - done
    ensures DeliveredJobs(jobs', Ids(batch), deliveries) == DeliveredJobs(jobs, done + Ids(batch), deliveries)
    ensures var later := DeliveredRows(rows, Ids(batch), now, deliveries);
            var jobs'' := DeliveredJobs(jobs', Ids(batch), deliveries);
            && NoIntentLost(before, later, jobs'', candidates)
            && (AllHandedOver(Ids(batch), deliveries) ==> later == before - (done + Ids(batch)))
  {
    JobsAddUp(jobs, done, Ids(batch), deliveries);
    RowsOfRound(before, done, Ids(batch), token, now, deliveries);
    RoundLosesNothing(before, jobs, done, Ids(batch), candidates, token, now, deliveries);
  }

  lemma RoundStops(before: Intents, jobs: Jobs, rows: Intents, jobs': Jobs, candidates: set<OrderId>, rounds: nat,
          done: set<OrderId>, batch: seq<OrderId>, firstToken: Token, token: Token, now: Time,
          deliveries: OrderId -> Delivery)
    requires RoundStarts(before, jobs, rows, jobs', candidates, rounds, done, batch, firstToken, token, now, deliveries)
    requires !AllHandedOver(Ids(batch), deliveries)
    ensures Stopped(before, jobs, DeliveredRows(rows, Ids(batch), now, deliveries),
                    DeliveredJobs(jobs', Ids(batch), deliveries), candidates, firstToken, now, deliveries)
  {
    JobsAddUp(jobs, done, Ids(batch), deliveries);
    assert StoppedAt(before, jobs, DeliveredRows(rows, Ids(batch), now, deliveries),
                     DeliveredJobs(jobs', Ids(batch), deliveries), candidates, rounds, done, Ids(batch), firstToken,
                     token, now, deliveries);
  }

  /** What the loop needs to go round once more. */
  lemma RoundGoesOn(before: Intents, jobs: Jobs, rows: Intents, jobs': Jobs, candidates: set<OrderId>, rounds: nat,
          done: set<OrderId>, batch: seq<OrderId>, firstToken: Token, token: Token, now: Time,
          deliveries: OrderId -> Delivery)
    requires RoundStarts(before, jobs, rows, jobs', candidates, rounds, done, batch, firstToken, token, now, deliveries)
    requires batch != []
    ensures AreOldest(candidates, done + Ids(batch), (rounds + 1) * BATCH_SIZE)
    ensures |candidates - (done + Ids(batch))| < |candidates - done|
    ensures AllHandedOver(Ids(batch), deliveries) ==> AllHandedOver(done + Ids(batch), deliveries)
  {
    OneMoreBatch(candidates, done, Ids(batch), rounds, BATCH_SIZE);
    FewerLeft(candidates, done, batch);
  }

  /** Nothing claimed, nothing left: the loop has handed over every candidate. */
  lemma LoopEnds(before: Intents, jobs: Jobs, rows: Intents, jobs': Jobs, candidates: set<OrderId>, rounds: nat,
          done: set<OrderId>, firstToken: Token, token: Token, now: Time, deliveries: OrderId -> Delivery)
    requires RoundStarts(before, jobs, rows, jobs', candidates, rounds, done, [], firstToken, token, now, deliveries)
    ensures done == candidates && AllHandedOver(candidates, deliveries)
    ensures rows == before - candidates && jobs' == DeliveredJobs(jobs, candidates, deliveries)
    ensures NoIntentLost(before, rows, jobs', candidates)
  {
    EmptyBatch(candidates - done, BATCH_SIZE);
    assert done == candidates;
    assert Ids([]) == {};
  }

  /** Every due intent that was not locked has become a job, and every other is as it was. */
  ghost predicate AllAreHandedOver(before: Intents, rows: Intents, jobs: Jobs, locked: set<OrderId>, now: Time) {
    && rows.Keys <= before.Keys
    && forall id :: id in before ==>
         if id !in locked && IsDue(before[id], now) then id !in rows && id in jobs
         else id in rows && rows[id] == before[id]
  }

  lemma CandidatesHandedOver(before: Intents, jobs: Jobs, locked: set<OrderId>, now: Time,
          deliveries: OrderId -> Delivery)
    requires AllHandedOver(Candidates(before, locked, now), deliveries)
    ensures var candidates := Candidates(before, locked, now);
            AllAreHandedOver(before, before - candidates, DeliveredJobs(jobs, candidates, deliveries), locked, now)
  {
  }

  /**
   The dispatch loop, beside statements that keep `locked` intents locked. Unless one of
   them fails, every candidate ends with a job and without an intent; if one does, the loop
   stops after the batch that failed. Either way no intent is removed whose order has no job.
   */
  method DispatchLoop(outbox: Outbox, firstToken: Token, now: Time, locked: set<OrderId>,
          deliveries: OrderId -> Delivery)
    returns (hasFailedDispatch: bool)
    modifies outbox
    ensures hasFailedDispatch <==> !AllHandedOver(Candidates(old(outbox.rows), locked, now), deliveries)
    ensures NoIntentLost(old(outbox.rows), outbox.rows, outbox.jobs, Candidates(old(outbox.rows), locked, now))
    ensures hasFailedDispatch ==>
              Stopped(old(outbox.rows), old(outbox.jobs), outbox.rows, outbox.jobs,
                      Candidates(old(outbox.rows), locked, now), firstToken, now, deliveries)
    ensures !hasFailedDispatch ==>
              && outbox.rows == old(outbox.rows) - Candidates(old(outbox.rows), locked, now)
              && outbox.jobs == DeliveredJobs(old(outbox.jobs), Candidates(old(outbox.rows), locked, now), deliveries)
    ensures !hasFailedDispatch ==> AllAreHandedOver(old(outbox.rows), outbox.rows, outbox.jobs, locked, now)
  {
    ghost var before, jobs := outbox.rows, outbox.jobs;
    ghost var candidates := Candidates(before, locked, now);
    ghost var rounds: nat, done: set<OrderId> := 0, {};
    assert before - done == before && jobs == DeliveredJobs(jobs, done, deliveries);
    var token := firstToken;
    var batch := outbox.ClaimNextBatch(token, now, locked);
    ClaimStartsRound(before, jobs, outbox.jobs, candidates, rounds, done, batch, firstToken, token, now, locked,
      deliveries);
    while batch != []
      invariant RoundStarts(before, jobs, outbox.rows, outbox.jobs, candidates, rounds, done, batch, firstToken, token,
                            now, deliveries)
      decreases |candidates - done|
    {
      RoundEnds(before, jobs, outbox.rows, outbox.jobs, candidates, rounds, done, batch, firstToken, token, now,
        deliveries);
      RoundGoesOn(before, jobs, outbox.rows, outbox.jobs, candidates, rounds, done, batch, firstToken, token, now,
        deliveries);
      ghost var rows, jobs' := outbox.rows, outbox.jobs;
      hasFailedDispatch := DispatchBatch(outbox, batch, token, now, deliveries);
      if hasFailedDispatch {
        RoundStops(before, jobs, rows, jobs', candidates, rounds, done, batch, firstToken, token, now, deliveries);
        return;
      }
      rounds, done := rounds + 1, done + Ids(batch);
      token := token + 1;
      batch := outbox.ClaimNextBatch(token, now, locked);
      ClaimStartsRound(before, jobs, outbox.jobs, candidates, rounds, done, batch, firstToken, token, now, locked,
        deliveries);
    }
    LoopEnds(before, jobs, outbox.rows, outbox.jobs, candidates, rounds, done, firstToken, token, now, deliveries);
    CandidatesHandedOver(before, jobs, locked, now, deliveries);
    hasFailedDispatch := false;
  }
}
