/**
 Whole runs from accepted orders to their matching: the matching outbox, its dispatchers,
 the job queue and its workers. Dispatchers and workers may crash between any two steps,
 deliveries may fail before or after taking effect, and jobs may be delivered again;
 the queue loses no waiting or active job.
 */
module MatchingPipeline {
  import opened Outcomes
  import opened Model
  import opened OutboxClaims
  import opened MatchingOutbox
  import opened Engine
  import opened Reachability
  import opened Lifecycle
  import Processor

  /** How far a dispatcher is with a row it claimed. */
  datatype ClaimPhase = Claimed | Enqueued | Failing

  /** How many finished jobs of either kind the queue keeps on record (removeOnComplete, removeOnFail). */
  const RETAINED_JOBS: nat := 100

  /** `forgotten` are the orders whose failed job the queue has dropped from its records. */
  datatype Pipeline = Pipeline(
    history: seq<Command>, rows: Intents, jobs: Jobs, forgotten: set<OrderId>,
    claims: map<(OrderId, Token), ClaimPhase>, nextToken: Token, now: Time)

  datatype Step =
    | Tick(ms: nat)
    | Call(command: Command)                          // any transaction: a user's, or a stalled worker's late commit
    | Claim(ids: set<OrderId>, locked: set<OrderId>)  // other statements hold `locked`
    | Enqueue(id: OrderId, token: Token)              // acknowledged
    | EnqueueFails(id: OrderId, token: Token, added: bool)
    | Remove(id: OrderId, token: Token)
    | RemoveFails(id: OrderId, token: Token, removed: bool)
    | Release(id: OrderId, token: Token)
    | Forget(id: OrderId, token: Token)               // crash, or a failed release
    | Start(id: OrderId)
    | ProcessCommits(id: OrderId)
    | AttemptThrows(id: OrderId)
    | RejectCommits(id: OrderId)
    | RejectThrows(id: OrderId)
    | Complete(id: OrderId)
    | Stall(id: OrderId, exhausted: bool)             // the worker died
    | RetryFailed(id: OrderId)
    | Evict(id: OrderId)                              // retention of finished jobs

  function Db(p: Pipeline): State {
    Run(p.history)
  }

  /** The intents a transaction appended. */
  function NewIntents(s: State, s': State): seq<OrderId> {
    if |s.intents| <= |s'.intents| then s'.intents[|s.intents|..] else []
  }

  /** Runs a transaction; the intents it appended are new rows of the outbox. */
  function Transacted(p: Pipeline, c: Command): Pipeline {
    p.(history := p.history + [c], rows := p.rows + map id | id in NewIntents(Db(p), Apply(Db(p), c)) :: NEW_INTENT)
  }

  predicate InState(p: Pipeline, id: OrderId, state: JobState) {
    id in p.jobs && p.jobs[id].state == state
  }

  function WithState(p: Pipeline, id: OrderId, state: JobState): Pipeline
    requires id in p.jobs
  {
    p.(jobs := p.jobs[id := p.jobs[id].(state := state)])
  }

  /** Adds the order's job, if the queue does not know one. */
  function WithJob(p: Pipeline, id: OrderId): Pipeline {
    p.(jobs := Added(p.jobs, id), forgotten := p.forgotten - {id})
  }

  /** The orders whose jobs finished in the given state and are still on record. */
  function Finished(jobs: Jobs, state: JobState): set<OrderId> {
    set id | id in jobs && jobs[id].state == state
  }

  /** Drops a finished job beyond the number the queue keeps. */
  function Evicted(p: Pipeline, id: OrderId): Option<Pipeline> {
    if InState(p, id, Completed) && RETAINED_JOBS < |Finished(p.jobs, Completed)| then Some(p.(jobs := p.jobs - {id}))
    else if InState(p, id, Failed) && RETAINED_JOBS < |Finished(p.jobs, Failed)|
    then Some(p.(jobs := p.jobs - {id}, forgotten := p.forgotten + {id}))
    else None
  }

  ghost function Next(p: Pipeline, step: Step): Option<Pipeline> {
    match step
    case Tick(ms) => Some(p.(now := p.now + ms))
    case Call(c) => Some(Transacted(p, c))
    case Claim(ids, locked) =>
      if AreOldest(Candidates(p.rows, locked, p.now), ids, BATCH_SIZE)
      then Some(p.(rows := ClaimedIntents(p.rows, ids, p.nextToken, p.now),
                   claims := p.claims + map id | id in ids :: (id, p.nextToken) := Claimed,
                   nextToken := p.nextToken + 1))
      else None
    case Enqueue(id, token) =>
      if (id, token) in p.claims && p.claims[(id, token)] == Claimed
      then Some(WithJob(p, id).(claims := p.claims[(id, token) := Enqueued])) else None
    case EnqueueFails(id, token, added) =>
      if (id, token) in p.claims && p.claims[(id, token)] == Claimed
      then Some((if added then WithJob(p, id) else p).(claims := p.claims[(id, token) := Failing])) else None
    case Remove(id, token) =>
      if (id, token) in p.claims && p.claims[(id, token)] == Enqueued
      then Some(p.(rows := Removed(p.rows, id, token), claims := p.claims - {(id, token)})) else None
    case RemoveFails(id, token, removed) =>
      if (id, token) in p.claims && p.claims[(id, token)] == Enqueued
      then Some(p.(rows := if removed then Removed(p.rows, id, token) else p.rows,
                   claims := p.claims[(id, token) := Failing]))
      else None
    case Release(id, token) =>
      if (id, token) in p.claims && p.claims[(id, token)] == Failing
      then Some(p.(rows := Released(p.rows, id, token, p.now), claims := p.claims - {(id, token)})) else None
    case Forget(id, token) => Some(p.(claims := p.claims - {(id, token)}))
    case Start(id) => if InState(p, id, Queueing) then Some(WithState(p, id, Active(false))) else None
    case ProcessCommits(id) =>
      if InState(p, id, Active(false)) && Outcome(Db(p), Process(id)).Ok?
      then Some(WithState(Transacted(p, Process(id)), id, Active(true))) else None
    case AttemptThrows(id) =>
      if id in p.jobs && p.jobs[id].state.Active?
      then Some(if p.jobs[id].attemptsMade + 1 >= ATTEMPTS then WithState(p, id, Rejecting)
                else p.(jobs := p.jobs[id := Job(Queueing, p.jobs[id].attemptsMade + 1)]))
      else None
    case RejectCommits(id) =>
      if InState(p, id, Rejecting) && Outcome(Db(p), Reject(id)).Ok?
      then Some(WithState(Transacted(p, Reject(id)), id, Active(true))) else None
    case RejectThrows(id) => if InState(p, id, Rejecting) then Some(WithState(p, id, Failed)) else None
    case Complete(id) => if InState(p, id, Active(true)) then Some(WithState(p, id, Completed)) else None
    case Stall(id, exhausted) =>
      if id in p.jobs && (p.jobs[id].state.Active? || p.jobs[id].state == Rejecting)
      then Some(WithState(p, id, if exhausted then Failed else Queueing)) else None
    case RetryFailed(id) =>
      if InState(p, id, Failed) then Some(p.(jobs := p.jobs[id := Job(Queueing, 0)])) else None
    case Evict(id) => Evicted(p, id)
  }

  const INITIAL := Pipeline([], map[], map[], {}, map[], 0, 0)

  ghost function After(schedule: seq<Step>): Option<Pipeline> {
    if schedule == [] then Some(INITIAL)
    else
      var before := After(schedule[..|schedule| - 1]);
      if before.None? then None else Next(before.value, schedule[|schedule| - 1])
  }

  // ----- no accepted order is lost -----

  predicate IsQueued(s: State, id: OrderId) {
    id < |s.orders| && s.orders[id].status == Queued
  }

  predicate IsLive(jobs: Jobs, id: OrderId) {
    id in jobs && jobs[id].state != Completed && jobs[id].state != Failed
  }

  /** The order needs no intent: it left the queue, its job is alive or on record as failed, or was and is forgotten. */
  predicate Handed(p: Pipeline, id: OrderId) {
    !IsQueued(Db(p), id) || IsLive(p.jobs, id) || InState(p, id, Failed) || id in p.forgotten
  }

  ghost predicate JobsHonest(p: Pipeline) {
    && (forall id: OrderId :: id in p.jobs ==>
          && (p.jobs[id].state == Completed || p.jobs[id].state == Active(true) ==> !IsQueued(Db(p), id))
          && id < |Db(p).orders|)
    && p.forgotten !! p.jobs.Keys
  }

  ghost predicate ClaimsHonest(p: Pipeline) {
    && (forall c: (OrderId, Token) :: c in p.claims ==> c.0 < |Db(p).orders| && c.1 < p.nextToken)
    && (forall c: (OrderId, Token) :: c in p.claims && p.claims[c] == Enqueued ==> Handed(p, c.0))
  }

  ghost predicate NothingLost(p: Pipeline) {
    forall id: OrderId :: IsQueued(Db(p), id) ==> id in p.rows || Handed(p, id)
  }

  ghost predicate RowsHonest(p: Pipeline) {
    forall id: OrderId :: id in p.rows ==>
      id < |Db(p).orders| && (p.rows[id].token.Some? ==> p.rows[id].token.value < p.nextToken)
  }

  ghost predicate PipelineInv(p: Pipeline) {
    JobsHonest(p) && ClaimsHonest(p) && NothingLost(p) && RowsHonest(p)
  }

  /** Once an order has left the queue no transaction puts it back. */
  lemma TransactedKeepsOut(p: Pipeline, c: Command)
    ensures Db(Transacted(p, c)) == Apply(Db(p), c)
    ensures |Db(p).orders| <= |Db(Transacted(p, c)).orders|
    ensures forall id: OrderId :: id < |Db(p).orders| && IsQueued(Db(Transacted(p, c)), id) ==> IsQueued(Db(p), id)
  {
    var later := p.history + [c];
    assert later[..|later| - 1] == p.history;
    ReachableIsSound(p.history);
    ApplyFollows(Db(p), OpeningsOf(p.history), c);
    forall id: OrderId | id < |Db(p).orders| && IsQueued(Apply(Db(p), c), id)
      ensures IsQueued(Db(p), id)
    {
      assert MayBecome(Db(p).orders[id], Apply(Db(p), c).orders[id]);
    }
  }

  /** A new order and its intent come from the same transaction, and no other intent is ever appended. */
  lemma OrdersComeWithIntents(s: State, c: Command)
    ensures forall id: OrderId :: id in NewIntents(s, Apply(s, c)) <==> |s.orders| <= id < |Apply(s, c).orders|
  {
  }

  /** A delivery that returns leaves its order out of the queue. */
  lemma DeliveryLeavesQueue(s: State, c: Command)
    requires (c.Process? || c.Reject?) && Outcome(s, c).Ok?
    ensures !IsQueued(Apply(s, c), c.id)
  {
  }

  lemma TransactedKeeps(p: Pipeline, c: Command)
    requires PipelineInv(p)
    ensures PipelineInv(Transacted(p, c))
  {
    var p' := Transacted(p, c);
    TransactedKeepsOut(p, c);
    OrdersComeWithIntents(Db(p), c);
    forall id: OrderId | IsQueued(Db(p'), id)
      ensures id in p'.rows || Handed(p', id)
    {
      if id < |Db(p).orders| {
        assert IsQueued(Db(p), id);
      }
    }
    forall c: (OrderId, Token) | c in p'.claims && p'.claims[c] == Enqueued
      ensures Handed(p', c.0)
    {
      assert Handed(p, c.0);
    }
  }

  // ----- the steps -----

  /** Outbox and dispatcher steps that leave jobs and the database alone. */
  lemma RowsKeep(p: Pipeline, p': Pipeline)
    requires PipelineInv(p)
    requires p'.history == p.history && p'.jobs == p.jobs && p'.forgotten == p.forgotten
    requires ClaimsHonest(p') && RowsHonest(p')
    requires forall id: OrderId :: id in p.rows && id !in p'.rows ==> Handed(p, id)
    ensures PipelineInv(p')
  {
  }

  /** Job steps: what was handed over stays handed over. */
  lemma JobsKeep(p: Pipeline, p': Pipeline)
    requires PipelineInv(p)
    requires p'.history == p.history && p'.rows == p.rows && p'.claims == p.claims && p'.nextToken == p.nextToken
    requires JobsHonest(p')
    requires forall id: OrderId :: Handed(p, id) ==> Handed(p', id)
    ensures PipelineInv(p')
  {
  }

  lemma ClaimKeeps(p: Pipeline, ids: set<OrderId>, locked: set<OrderId>)
    requires PipelineInv(p) && Next(p, Claim(ids, locked)).Some?
    ensures PipelineInv(Next(p, Claim(ids, locked)).value)
  {
    var p' := Next(p, Claim(ids, locked)).value;
    forall c: (OrderId, Token) | c in p'.claims
      ensures c.0 < |Db(p').orders| && c.1 < p'.nextToken
      ensures p'.claims[c] == Enqueued ==> Handed(p', c.0)
    {
      if c !in p.claims || p'.claims[c] != p.claims[c] {
        assert c.0 in ids;
      }
    }
    RowsKeep(p, p');
  }

  /** An acknowledged job is alive, or finished, or failed: its order is handed over. */
  lemma AddedHandsOver(p: Pipeline, id: OrderId, p': Pipeline)
    requires PipelineInv(p) && id < |Db(p).orders|
    requires p' == WithJob(p, id)
    ensures PipelineInv(p') && Handed(p', id)
  {
    assert JobsHonest(p');
    JobsKeep(p, p');
  }

  lemma EnqueueKeeps(p: Pipeline, id: OrderId, token: Token, added: bool, phase: ClaimPhase)
    requires PipelineInv(p) && (id, token) in p.claims && (phase == Enqueued ==> added)
    ensures PipelineInv((if added then WithJob(p, id) else p).(claims := p.claims[(id, token) := phase]))
  {
    assert (id, token).0 < |Db(p).orders| && (id, token).1 < p.nextToken;
    var q := if added then WithJob(p, id) else p;
    if added {
      AddedHandsOver(p, id, q);
    }
    RowsKeep(q, q.(claims := p.claims[(id, token) := phase]));
  }

  lemma RemoveKeeps(p: Pipeline, id: OrderId, token: Token, removed: bool, claims: map<(OrderId, Token), ClaimPhase>)
    requires PipelineInv(p) && (id, token) in p.claims && p.claims[(id, token)] == Enqueued
    requires claims == p.claims - {(id, token)} || claims == p.claims[(id, token) := Failing]
    ensures PipelineInv(p.(rows := if removed then Removed(p.rows, id, token) else p.rows, claims := claims))
  {
    assert Handed(p, (id, token).0) && (id, token).0 < |Db(p).orders| && (id, token).1 < p.nextToken;
    RowsKeep(p, p.(rows := if removed then Removed(p.rows, id, token) else p.rows, claims := claims));
  }

  lemma ReleaseKeeps(p: Pipeline, id: OrderId, token: Token)
    requires PipelineInv(p)
    ensures PipelineInv(p.(rows := Released(p.rows, id, token, p.now), claims := p.claims - {(id, token)}))
    ensures PipelineInv(p.(claims := p.claims - {(id, token)}))
  {
    RowsKeep(p, p.(rows := Released(p.rows, id, token, p.now), claims := p.claims - {(id, token)}));
    RowsKeep(p, p.(claims := p.claims - {(id, token)}));
  }

  /** One job moves on: it stays alive, or fails on record, or finishes with its order out of the queue. */
  lemma JobKeeps(p: Pipeline, id: OrderId, job: Job)
    requires PipelineInv(p) && id in p.jobs
    requires job.state == Completed || job.state == Active(true) ==> !IsQueued(Db(p), id)
    ensures PipelineInv(p.(jobs := p.jobs[id := job]))
  {
    JobsKeep(p, p.(jobs := p.jobs[id := job]));
  }

  lemma EvictKeeps(p: Pipeline, id: OrderId)
    requires PipelineInv(p) && Evicted(p, id).Some?
    ensures PipelineInv(Evicted(p, id).value)
  {
    JobsKeep(p, Evicted(p, id).value);
  }

  lemma StartKeeps(p: Pipeline, id: OrderId)
    requires PipelineInv(p) && Next(p, Start(id)).Some?
    ensures PipelineInv(Next(p, Start(id)).value)
  {
    JobKeeps(p, id, p.jobs[id].(state := Active(false)));
  }

  lemma AttemptKeeps(p: Pipeline, id: OrderId)
    requires PipelineInv(p) && Next(p, AttemptThrows(id)).Some?
    ensures PipelineInv(Next(p, AttemptThrows(id)).value)
  {
    if p.jobs[id].attemptsMade + 1 >= ATTEMPTS {
      JobKeeps(p, id, p.jobs[id].(state := Rejecting));
    } else {
      JobKeeps(p, id, Job(Queueing, p.jobs[id].attemptsMade + 1));
    }
  }

  lemma RejectFailsKeeps(p: Pipeline, id: OrderId)
    requires PipelineInv(p) && Next(p, RejectThrows(id)).Some?
    ensures PipelineInv(Next(p, RejectThrows(id)).value)
  {
    JobKeeps(p, id, p.jobs[id].(state := Failed));
  }

  lemma CompleteKeeps(p: Pipeline, id: OrderId)
    requires PipelineInv(p) && Next(p, Complete(id)).Some?
    ensures PipelineInv(Next(p, Complete(id)).value)
  {
    JobKeeps(p, id, p.jobs[id].(state := Completed));
  }

  lemma StallKeeps(p: Pipeline, id: OrderId, exhausted: bool)
    requires PipelineInv(p) && Next(p, Stall(id, exhausted)).Some?
    ensures PipelineInv(Next(p, Stall(id, exhausted)).value)
  {
    JobKeeps(p, id, p.jobs[id].(state := if exhausted then Failed else Queueing));
  }

  lemma RetryKeeps(p: Pipeline, id: OrderId)
    requires PipelineInv(p) && Next(p, RetryFailed(id)).Some?
    ensures PipelineInv(Next(p, RetryFailed(id)).value)
  {
    JobKeeps(p, id, Job(Queueing, 0));
  }

  lemma DeliveryKeeps(p: Pipeline, id: OrderId, c: Command)
    requires PipelineInv(p) && IsLive(p.jobs, id)
    requires (c == Process(id) || c == Reject(id)) && Outcome(Db(p), c).Ok?
    ensures PipelineInv(WithState(Transacted(p, c), id, Active(true)))
  {
    TransactedKeeps(p, c);
    TransactedKeepsOut(p, c);
    DeliveryLeavesQueue(Db(p), c);
    var q := Transacted(p, c);
    var p' := WithState(q, id, Active(true));
    forall i: OrderId | i in p'.jobs
      ensures p'.jobs[i].state == Completed || p'.jobs[i].state == Active(true) ==> !IsQueued(Db(p'), i)
      ensures i < |Db(p').orders|
    {
      assert i in q.jobs;
    }
    JobsKeep(q, p');
  }

  /** The steps of the queue and its workers. */
  predicate IsJobStep(step: Step) {
    || step.Start? || step.ProcessCommits? || step.AttemptThrows? || step.RejectCommits? || step.RejectThrows?
    || step.Complete? || step.Stall? || step.RetryFailed? || step.Evict?
  }

  lemma NextKeeps(p: Pipeline, step: Step)
    requires PipelineInv(p) && Next(p, step).Some?
    ensures PipelineInv(Next(p, step).value)
  {
    if IsJobStep(step) {
      JobStepKeeps(p, step);
    } else {
      OutboxStepKeeps(p, step);
    }
  }

  lemma OutboxStepKeeps(p: Pipeline, step: Step)
    requires PipelineInv(p) && Next(p, step).Some? && !IsJobStep(step)
    ensures PipelineInv(Next(p, step).value)
  {
    match step
    case Tick(ms) => RowsKeep(p, Next(p, step).value);
    case Call(c) => TransactedKeeps(p, c);
    case Claim(ids, locked) => ClaimKeeps(p, ids, locked);
    case Enqueue(id, token) => EnqueueKeeps(p, id, token, true, Enqueued);
    case EnqueueFails(id, token, added) => EnqueueKeeps(p, id, token, added, Failing);
    case Remove(id, token) => RemoveKeeps(p, id, token, true, p.claims - {(id, token)});
    case RemoveFails(id, token, removed) => RemoveKeeps(p, id, token, removed, p.claims[(id, token) := Failing]);
    case Release(id, token) => ReleaseKeeps(p, id, token);
    case Forget(id, token) => ReleaseKeeps(p, id, token);
  }

  lemma JobStepKeeps(p: Pipeline, step: Step)
    requires PipelineInv(p) && Next(p, step).Some? && IsJobStep(step)
    ensures PipelineInv(Next(p, step).value)
  {
    match step
    case ProcessCommits(id) => DeliveryKeeps(p, id, Process(id));
    case RejectCommits(id) => DeliveryKeeps(p, id, Reject(id));
    case Evict(id) => EvictKeeps(p, id);
    case Start(id) => StartKeeps(p, id);
    case AttemptThrows(id) => AttemptKeeps(p, id);
    case RejectThrows(id) => RejectFailsKeeps(p, id);
    case Complete(id) => CompleteKeeps(p, id);
    case Stall(id, exhausted) => StallKeeps(p, id, exhausted);
    case RetryFailed(id) => RetryKeeps(p, id);
  }

  lemma {:induction false} SchedulesKeep(schedule: seq<Step>)
    requires After(schedule).Some?
    ensures PipelineInv(After(schedule).value)
  {
    if schedule != [] {
      var n := |schedule| - 1;
      SchedulesKeep(schedule[..n]);
      NextKeeps(After(schedule[..n]).value, schedule[n]);
    }
  }

  // ----- every intent is claimed again -----

  /** No lease and no retry lies further ahead than the constants allow. */
  ghost predicate Timely(rows: Intents, now: Time) {
    forall id: OrderId :: id in rows ==>
      && (rows[id].claimedAt.Some? ==> rows[id].claimedAt.value <= now)
      && (rows[id].nextAttemptAt.Some? ==> rows[id].nextAttemptAt.value <= now + RETRY_DELAY)
  }

  lemma RowsStayTimely(rows: Intents, now: Time, id: OrderId, token: Token)
    requires Timely(rows, now)
    ensures Timely(Removed(rows, id, token), now) && Timely(Released(rows, id, token, now), now)
  {
  }

  lemma ClaimStaysTimely(rows: Intents, now: Time, ids: set<OrderId>, token: Token)
    requires Timely(rows, now) && ids <= rows.Keys
    ensures Timely(ClaimedIntents(rows, ids, token, now), now)
  {
  }

  lemma NewStaysTimely(rows: Intents, now: Time, ids: seq<OrderId>)
    requires Timely(rows, now)
    ensures Timely(rows + map id | id in ids :: NEW_INTENT, now)
  {
  }

  lemma TransactedStaysTimely(p: Pipeline, c: Command)
    requires Timely(p.rows, p.now)
    ensures Timely(Transacted(p, c).rows, p.now)
  {
    NewStaysTimely(p.rows, p.now, NewIntents(Db(p), Apply(Db(p), c)));
  }

  lemma NextKeepsTimely(p: Pipeline, step: Step)
    requires Timely(p.rows, p.now) && Next(p, step).Some?
    ensures Timely(Next(p, step).value.rows, Next(p, step).value.now)
  {
    if IsJobStep(step) {
      JobStepKeepsTimely(p, step);
    } else {
      OutboxStepKeepsTimely(p, step);
    }
  }

  lemma JobStepKeepsTimely(p: Pipeline, step: Step)
    requires Timely(p.rows, p.now) && Next(p, step).Some? && IsJobStep(step)
    ensures Timely(Next(p, step).value.rows, Next(p, step).value.now)
  {
    match step
    case ProcessCommits(id) => TransactedStaysTimely(p, Process(id));
    case RejectCommits(id) => TransactedStaysTimely(p, Reject(id));
    case _ => JobStepsLeaveRows(p, step);
  }

  lemma JobStepsLeaveRows(p: Pipeline, step: Step)
    requires Next(p, step).Some? && IsJobStep(step) && !step.ProcessCommits? && !step.RejectCommits?
    ensures Next(p, step).value.rows == p.rows && Next(p, step).value.now == p.now
  {
  }

  lemma OutboxStepKeepsTimely(p: Pipeline, step: Step)
    requires Timely(p.rows, p.now) && Next(p, step).Some? && !IsJobStep(step)
    ensures Timely(Next(p, step).value.rows, Next(p, step).value.now)
  {
    match step
    case Call(c) => TransactedStaysTimely(p, c);
    case Claim(ids, locked) => ClaimStaysTimely(p.rows, p.now, ids, p.nextToken);
    case Remove(id, token) => RowsStayTimely(p.rows, p.now, id, token);
    case RemoveFails(id, token, removed) => RowsStayTimely(p.rows, p.now, id, token);
    case Release(id, token) => RowsStayTimely(p.rows, p.now, id, token);
    case _ =>
  }

  lemma {:induction false} IntentsStayTimely(schedule: seq<Step>)
    requires After(schedule).Some?
    ensures Timely(After(schedule).value.rows, After(schedule).value.now)
  {
    if schedule != [] {
      var n := |schedule| - 1;
      IntentsStayTimely(schedule[..n]);
      NextKeepsTimely(After(schedule[..n]).value, schedule[n]);
    }
  }

  /**
   Whatever becomes of its dispatcher and of all other intents, an intent found as it was
   thirty seconds and a millisecond earlier is a candidate again; and with fewer older
   candidates than a batch holds, the next claim takes it.
   */
  lemma IntentIsClaimedAgain(schedule: seq<Step>, more: seq<Step>, id: OrderId, ids: set<OrderId>, locked: set<OrderId>)
    requires After(schedule).Some? && After(schedule + more).Some?
    requires var p, p' := After(schedule).value, After(schedule + more).value;
             && id in p.rows && id in p'.rows && p'.rows[id] == p.rows[id]
             && p.now + 30_001 <= p'.now && id !in locked
    ensures var p' := After(schedule + more).value;
            var candidates := Candidates(p'.rows, locked, p'.now);
            && id in candidates
            && (AreOldest(candidates, ids, BATCH_SIZE) && |Older(candidates, id)| < BATCH_SIZE ==> id in ids)
  {
    IntentsStayTimely(schedule);
    var p' := After(schedule + more).value;
    var candidates := Candidates(p'.rows, locked, p'.now);
    if AreOldest(candidates, ids, BATCH_SIZE) && |Older(candidates, id)| < BATCH_SIZE {
      TakenIfFewAreOlder(candidates, ids, BATCH_SIZE, id);
    }
  }

  // ----- fencing -----

  /** A token that no longer holds an intent never holds it again. */
  lemma TokenStaysGone(p: Pipeline, step: Step, id: OrderId, token: Token)
    requires PipelineInv(p) && Next(p, step).Some? && token < p.nextToken && !HeldBy(p.rows, id, token)
    ensures !HeldBy(Next(p, step).value.rows, id, token) && token < Next(p, step).value.nextToken
  {
  }

  lemma {:induction false} TokenStaysGoneOver(schedule: seq<Step>, more: seq<Step>, id: OrderId, token: Token)
    requires After(schedule).Some? && After(schedule + more).Some?
    requires token < After(schedule).value.nextToken && !HeldBy(After(schedule).value.rows, id, token)
    ensures !HeldBy(After(schedule + more).value.rows, id, token)
    ensures token < After(schedule + more).value.nextToken
    decreases |more|
  {
    if more == [] {
      assert schedule + more == schedule;
    } else {
      var n := |more| - 1;
      assert (schedule + more)[..|schedule + more| - 1] == schedule + more[..n];
      TokenStaysGoneOver(schedule, more[..n], id, token);
      SchedulesKeep(schedule + more[..n]);
      TokenStaysGone(After(schedule + more[..n]).value, more[n], id, token);
    }
  }

  /**
   Once an intent has been claimed again, whatever the earlier dispatcher still does with its
   token - at any later time - removes nothing and ends no lease.
   */
  lemma EarlierDispatcherIsFenced(schedule: seq<Step>, more: seq<Step>, id: OrderId, earlier: Token)
    requires After(schedule).Some? && After(schedule + more).Some?
    requires id in After(schedule).value.rows && After(schedule).value.rows[id].token.Some?
    requires earlier != After(schedule).value.rows[id].token.value && earlier < After(schedule).value.nextToken
    ensures var p := After(schedule + more).value;
            && Removed(p.rows, id, earlier) == p.rows
            && Released(p.rows, id, earlier, p.now) == p.rows
  {
    TokenStaysGoneOver(schedule, more, id, earlier);
  }

  /**
   A job has at most two counted failures before its last attempt, and only that attempt can
   go over to rejecting. Stalled deliveries are not counted, and a manual retry starts afresh.
   */
  ghost predicate WithinBudget(jobs: Jobs) {
    forall id: OrderId :: id in jobs ==>
      jobs[id].attemptsMade < 3 && (jobs[id].state == Rejecting ==> jobs[id].attemptsMade == 2)
  }

  lemma NextKeepsBudget(p: Pipeline, step: Step)
    requires WithinBudget(p.jobs) && Next(p, step).Some?
    ensures WithinBudget(Next(p, step).value.jobs)
  {
    var jobs := Next(p, step).value.jobs;
    forall id: OrderId | id in jobs
      ensures jobs[id].attemptsMade < ATTEMPTS
              && (jobs[id].state == Rejecting ==> jobs[id].attemptsMade == ATTEMPTS - 1)
    {
      assert id in p.jobs || jobs[id] == Job(Queueing, 0);
    }
  }

  lemma {:induction false} JobsStayWithinBudget(schedule: seq<Step>)
    requires After(schedule).Some?
    ensures WithinBudget(After(schedule).value.jobs)
  {
    if schedule != [] {
      var n := |schedule| - 1;
      JobsStayWithinBudget(schedule[..n]);
      NextKeepsBudget(After(schedule[..n]).value, schedule[n]);
    }
  }

  lemma AttemptThrown(p: Pipeline, id: OrderId)
    requires InState(p, id, Active(false))
    ensures var made := p.jobs[id].attemptsMade;
            Next(p, AttemptThrows(id))
            == Some(p.(jobs := p.jobs[id := if made + 1 < 3 then Job(Queueing, made + 1) else Job(Rejecting, made)]))
  {
  }

  lemma MatchingCommits(p: Pipeline, id: OrderId)
    requires InState(p, id, Active(false))
    ensures Next(p, ProcessCommits(id)).Some? <==> Outcome(Db(p), Process(id)).Ok?
    ensures Outcome(Db(p), Process(id)).Ok? ==>
              Ok(Db(Next(p, ProcessCommits(id)).value)) == Outcome(Db(p), Process(id))
  {
    TransactedKeepsOut(p, Process(id));
  }

  lemma RejectionCommits(p: Pipeline, id: OrderId)
    requires InState(p, id, Rejecting)
    ensures Next(p, RejectCommits(id)).Some? <==> Outcome(Db(p), Reject(id)).Ok?
    ensures Outcome(Db(p), Reject(id)).Ok? ==>
              Ok(Db(Next(p, RejectCommits(id)).value)) == Outcome(Db(p), Reject(id))
  {
    TransactedKeepsOut(p, Reject(id));
  }

  /** One delivery to the processor, at three attempts, in terms of the two transactions. */
  lemma DeliveryEnds(s: State, id: OrderId, made: nat)
    ensures var processed, rejected := Outcome(s, Process(id)), Outcome(s, Reject(id));
            Processor.Delivered(s, id, made, 3)
            == (if processed.Ok? then (Processor.Done, processed.value)
                else if made + 1 < 3 then (Processor.Retried, s)
                else if rejected.Ok? then (Processor.Done, rejected.value)
                else (Processor.Failed, s))
  {
  }

  /** What the steps of an active job do together is what one delivery to the processor does. */
  lemma DeliveryAgreesWithProcessor(p: Pipeline, id: OrderId)
    requires InState(p, id, Active(false))
    ensures var db, made := Db(p), p.jobs[id].attemptsMade;
            var (end, db') := Processor.Delivered(db, id, made, 3);
            var thrown := Next(p, AttemptThrows(id));
            && thrown.Some? && Db(thrown.value) == db
            && (Next(p, ProcessCommits(id)).Some? <==> Outcome(db, Process(id)).Ok?)
            && (Outcome(db, Process(id)).Ok? ==>
                  end == Processor.Done && Db(Next(p, ProcessCommits(id)).value) == db')
            && (Outcome(db, Process(id)).Err? ==>
                  && (end == Processor.Retried ==> db' == db && thrown.value.jobs[id] == Job(Queueing, made + 1))
                  && (end != Processor.Retried ==> thrown.value.jobs[id] == Job(Rejecting, made))
                  && (end == Processor.Done ==>
                        && Next(thrown.value, RejectCommits(id)).Some?
                        && Db(Next(thrown.value, RejectCommits(id)).value) == db')
                  && (end == Processor.Failed ==> db' == db && Next(thrown.value, RejectCommits(id)).None?))
  {
    AttemptThrown(p, id);
    MatchingCommits(p, id);
    if p.jobs[id].attemptsMade + 1 >= 3 {
      RejectionCommits(Next(p, AttemptThrows(id)).value, id);
    }
    DeliveryEnds(Db(p), id, p.jobs[id].attemptsMade);
  }

  lemma OutboxStepsKeepJobs(p: Pipeline, step: Step, id: OrderId)
    requires Next(p, step).Some? && !IsJobStep(step) && id in p.jobs
    ensures id in Next(p, step).value.jobs && Next(p, step).value.jobs[id] == p.jobs[id]
  {
  }

  /** The queue drops no failed job while it has at most a hundred of them on record. */
  lemma FailedJobsStayOnRecord(p: Pipeline, step: Step, id: OrderId)
    requires Next(p, step).Some? && InState(p, id, Failed)
    requires |set other | other in p.jobs && p.jobs[other].state == Failed| <= 100
    ensures InState(Next(p, step).value, id, Failed) || (step == RetryFailed(id) && id in Next(p, step).value.jobs)
  {
    assert Finished(p.jobs, Failed) == set other | other in p.jobs && p.jobs[other].state == Failed;
    if IsJobStep(step) {
      JobStepsKeepFailed(p, step, id);
    } else {
      OutboxStepsKeepJobs(p, step, id);
    }
  }

  /** Beyond a hundred it may drop any of them. */
  lemma FailedJobsMayGo(p: Pipeline, id: OrderId)
    requires InState(p, id, Failed)
    ensures Next(p, Evict(id)).Some? <==> 100 < |set other | other in p.jobs && p.jobs[other].state == Failed|
    ensures Next(p, Evict(id)).Some? ==> Next(p, Evict(id)).value.jobs == p.jobs - {id}
  {
    assert Finished(p.jobs, Failed) == set other | other in p.jobs && p.jobs[other].state == Failed;
  }

  lemma JobStepsKeepFailed(p: Pipeline, step: Step, id: OrderId)
    requires Next(p, step).Some? && IsJobStep(step) && InState(p, id, Failed)
    requires |Finished(p.jobs, Failed)| <= RETAINED_JOBS
    ensures InState(Next(p, step).value, id, Failed) || (step == RetryFailed(id) && id in Next(p, step).value.jobs)
  {
  }

  /**
   No accepted order is lost: while it is queued it has an intent, a live job, or a job on
   record as failed - unless the queue has dropped the record of its failed job.
   */
  lemma NoAcceptedOrderIsLost(schedule: seq<Step>, id: OrderId)
    requires After(schedule).Some? && IsQueued(Db(After(schedule).value), id)
    ensures var p := After(schedule).value;
            id in p.rows || IsLive(p.jobs, id) || InState(p, id, Failed) || id in p.forgotten
  {
    SchedulesKeep(schedule);
  }

  /** That dropped record is the exact cause: without an intent a queued order has a job unless it is forgotten. */
  lemma LostMeansForgotten(schedule: seq<Step>, id: OrderId)
    requires After(schedule).Some? && IsQueued(Db(After(schedule).value), id) && id !in After(schedule).value.rows
    ensures var p := After(schedule).value;
            IsLive(p.jobs, id) || InState(p, id, Failed) <==> id !in p.forgotten
  {
    SchedulesKeep(schedule);
  }

  /** A job that completes normally has taken its order out of the queue. */
  lemma CompletedMeansProcessed(schedule: seq<Step>, id: OrderId)
    requires After(schedule).Some? && InState(After(schedule).value, id, Completed)
    ensures !IsQueued(Db(After(schedule).value), id)
  {
    SchedulesKeep(schedule);
  }

  /**
   However often jobs are delivered, the database is the one a history gives in which every
   order has at most one delivery that takes effect.
   */
  lemma DeliveriesSettleOnce(schedule: seq<Step>)
    requires After(schedule).Some?
    ensures var once := Erase(After(schedule).value.history);
            && Db(After(schedule).value) == Run(once)
            && forall m: nat, n: nat ::
                 TakesEffect(once, m) && TakesEffect(once, n) && once[m].id == once[n].id ==> m == n
  {
    var history := After(schedule).value.history;
    var once := Erase(history);
    RedundantDeliveriesChangeNothing(history);
    forall m: nat, n: nat | TakesEffect(once, m) && TakesEffect(once, n) && once[m].id == once[n].id
      ensures m == n
    {
      OneEffectiveDelivery(history, m, n);
    }
  }

  // ----- an intent runs to its matching -----

  lemma OneMoreStep(schedule: seq<Step>, step: Step)
    requires After(schedule).Some?
    ensures After(schedule + [step]) == Next(After(schedule).value, step)
  {
    assert (schedule + [step])[..|schedule|] == schedule;
  }

  lemma IntentIsClaimed(p: Pipeline, ids: set<OrderId>, locked: set<OrderId>, id: OrderId)
    requires AreOldest(Candidates(p.rows, locked, p.now), ids, BATCH_SIZE) && id in ids
    ensures Next(p, Claim(ids, locked)).Some?
    ensures var p' := Next(p, Claim(ids, locked)).value;
            && (id, p.nextToken) in p'.claims && p'.claims[(id, p.nextToken)] == Claimed
            && HeldBy(p'.rows, id, p.nextToken) && p'.jobs == p.jobs && p'.history == p.history
  {
  }

  lemma ClaimIsHandedOver(p: Pipeline, id: OrderId, token: Token)
    requires (id, token) in p.claims && p.claims[(id, token)] == Claimed && HeldBy(p.rows, id, token)
    requires id !in p.jobs
    ensures Next(p, Enqueue(id, token)).Some?
    ensures var q := Next(p, Enqueue(id, token)).value;
            && Next(q, Remove(id, token)).Some?
            && var p' := Next(q, Remove(id, token)).value;
               id !in p'.rows && p'.jobs == p.jobs[id := Job(Queueing, 0)] && p'.history == p.history
  {
  }

  /** The order is matched, as it would be alone; its intent is gone and its job completed. */
  ghost predicate HasMatched(p: Pipeline, p': Pipeline, id: OrderId) {
    id !in p'.rows && InState(p', id, Completed) && Ok(Db(p')) == Outcome(Db(p), Process(id))
  }

  lemma JobRuns(p: Pipeline, id: OrderId)
    requires InState(p, id, Queueing) && Outcome(Db(p), Process(id)).Ok? && id !in p.rows && id < |Db(p).orders|
    ensures Next(p, Start(id)).Some?
    ensures var q := Next(p, Start(id)).value;
            && Next(q, ProcessCommits(id)).Some?
            && var q' := Next(q, ProcessCommits(id)).value;
               && Next(q', Complete(id)).Some?
               && HasMatched(p, Next(q', Complete(id)).value, id)
  {
    var q := Next(p, Start(id)).value;
    MatchingCommits(q, id);
    OrdersComeWithIntents(Db(q), Process(id));
  }

  /**
   From every reachable state an intent that can be claimed, of an order the queue has no job
   for, can be handed over, and its job can be started and completed by matching the order.
   */
  lemma IntentsRunToMatching(schedule: seq<Step>, ids: set<OrderId>, locked: set<OrderId>, id: OrderId)
    returns (longer: seq<Step>)
    requires After(schedule).Some? && id in ids && id !in After(schedule).value.jobs
    requires AreOldest(Candidates(After(schedule).value.rows, locked, After(schedule).value.now), ids, BATCH_SIZE)
    requires Outcome(Db(After(schedule).value), Process(id)).Ok?
    ensures After(longer).Some? && HasMatched(After(schedule).value, After(longer).value, id)
  {
    var p := After(schedule).value;
    var token := p.nextToken;
    SchedulesKeep(schedule);
    IntentIsClaimed(p, ids, locked, id);
    OneMoreStep(schedule, Claim(ids, locked));
    longer := schedule + [Claim(ids, locked)];
    ClaimIsHandedOver(After(longer).value, id, token);
    OneMoreStep(longer, Enqueue(id, token));
    longer := longer + [Enqueue(id, token)];
    OneMoreStep(longer, Remove(id, token));
    longer := longer + [Remove(id, token)];
    longer := JobRunsFrom(longer, id);
  }

  lemma JobRunsFrom(schedule: seq<Step>, id: OrderId) returns (longer: seq<Step>)
    requires After(schedule).Some? && InState(After(schedule).value, id, Queueing) && id !in After(schedule).value.rows
    requires Outcome(Db(After(schedule).value), Process(id)).Ok?
    ensures After(longer).Some? && HasMatched(After(schedule).value, After(longer).value, id)
  {
    SchedulesKeep(schedule);
    JobRuns(After(schedule).value, id);
    OneMoreStep(schedule, Start(id));
    longer := schedule + [Start(id)];
    OneMoreStep(longer, ProcessCommits(id));
    longer := longer + [ProcessCommits(id)];
    OneMoreStep(longer, Complete(id));
    longer := longer + [Complete(id)];
  }
}
