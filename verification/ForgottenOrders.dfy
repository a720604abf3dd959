/**
 How an accepted order can be left with neither an intent nor a job: its intent was removed
 once it had a job, the job failed, and the queue keeps only its last hundred failed jobs.
 */
module ForgottenOrders {
  import opened Outcomes
  import opened Decimals
  import opened Model
  import opened OutboxClaims
  import opened MatchingOutbox
  import opened Engine
  import opened MatchingPipeline

  /** The smallest orders there are: one unit of dollars each. */
  function SmallOrder(sequence: nat): Command {
    Create(0, Buy, 100_000_000, 1, sequence)
  }

  function FailedJobs(k: nat): (jobs: Jobs)
    ensures forall id: OrderId :: id in jobs <==> id < k
    ensures forall id: OrderId :: id in jobs ==> jobs[id] == Job(Failed, ATTEMPTS - 1)
  {
    if k == 0 then map[] else FailedJobs(k - 1)[k - 1 := Job(Failed, ATTEMPTS - 1)]
  }

  /** Account 0 has `k` small orders in the queue. */
  ghost predicate Holding(s: State, k: nat) {
    && k <= 1_000
    && s.wallets == [Wallet(0, 0, 1_000 - k, k)]
    && |s.orders| == k
    && forall id: OrderId :: id < k ==> IsQueued(s, id) && s.orders[id].sequence == id
  }

  /** Each of them has a failed job and no intent. */
  ghost predicate Piled(p: Pipeline, k: nat) {
    Holding(Db(p), k) && p.rows == map[] && p.claims == map[] && p.forgotten == {} && p.jobs == FailedJobs(k)
  }

  /** The schedule goes on with one more step. */
  lemma GoesOn(schedule: seq<Step>, step: Step)
    requires After(schedule).Some?
    ensures After(schedule + [step]) == Next(After(schedule).value, step)
  {
    assert (schedule + [step])[..|schedule|] == schedule;
  }

  lemma AccountOpens() returns (schedule: seq<Step>)
    ensures After(schedule).Some? && Piled(After(schedule).value, 0)
  {
    var open := OpenAccount(Opening(0, 1_000));
    schedule := [] + [Call(open)];
    GoesOn([], Call(open));
    assert INITIAL.history + [open] == [open];
    assert [open][..0] == [];
    assert Run([open]) == Apply(EMPTY, open);
  }

  lemma SmallOrderFits(s: State, k: nat)
    requires k < 1_000 && Holding(s, k)
    ensures Holding(Apply(s, SmallOrder(k)), k + 1) && NewIntents(s, Apply(s, SmallOrder(k))) == [k]
  {
    var s' := Apply(s, SmallOrder(k));
    assert Cost(100_000_000, 1) == 1;
    assert s'.orders[..k] == s.orders;
    forall id: OrderId | id < k + 1
      ensures IsQueued(s', id)
    {
      assert id < k ==> IsQueued(s, id);
    }
  }

  lemma OrderIsAccepted(p: Pipeline, k: nat)
    requires k < 1_000 && Holding(Db(p), k) && p.rows == map[]
    ensures var p' := Transacted(p, SmallOrder(k));
            Holding(Db(p'), k + 1) && p' == p.(history := p'.history, rows := map[k := NEW_INTENT])
  {
    SmallOrderFits(Db(p), k);
    TransactedKeepsOut(p, SmallOrder(k));
  }

  /** The only intent is claimed, under the next token. */
  lemma IntentIsClaimed(p: Pipeline, k: OrderId)
    requires p.rows == map[k := NEW_INTENT] && p.claims == map[]
    ensures Next(p, Claim({k}, {})).Some?
    ensures var p' := Next(p, Claim({k}, {})).value;
            && p' == p.(rows := p'.rows, claims := map[(k, p.nextToken) := Claimed], nextToken := p.nextToken + 1)
            && p'.rows.Keys == {k} && HeldBy(p'.rows, k, p.nextToken)
  {
    assert Candidates(p.rows, {}, p.now) == {k};
    assert AreOldest({k}, {k}, BATCH_SIZE);
  }

  lemma JobIsAdded(p: Pipeline, k: OrderId, token: Token)
    requires p.claims == map[(k, token) := Claimed] && p.forgotten == {} && k !in p.jobs
    ensures Next(p, Enqueue(k, token))
         == Some(p.(jobs := p.jobs[k := Job(Queueing, 0)], claims := map[(k, token) := Enqueued]))
  {
    assert p.forgotten - {k} == {};
    assert p.claims[(k, token) := Enqueued] == map[(k, token) := Enqueued];
  }

  lemma IntentIsRemoved(p: Pipeline, k: OrderId, token: Token)
    requires p.claims == map[(k, token) := Enqueued] && p.rows.Keys == {k} && HeldBy(p.rows, k, token)
    ensures Next(p, Remove(k, token)) == Some(p.(rows := map[], claims := map[]))
  {
  }

  lemma IntentIsDispatched(schedule: seq<Step>, k: OrderId) returns (more: seq<Step>)
    requires After(schedule).Some?
    requires var p := After(schedule).value;
             p.rows == map[k := NEW_INTENT] && p.claims == map[] && p.forgotten == {} && k !in p.jobs
    ensures var p := After(schedule).value;
            && After(more).Some?
            && After(more).value == p.(rows := map[], jobs := p.jobs[k := Job(Queueing, 0)],
                                       nextToken := p.nextToken + 1)
  {
    var token := After(schedule).value.nextToken;
    IntentIsClaimed(After(schedule).value, k);
    GoesOn(schedule, Claim({k}, {}));
    var claimed := schedule + [Claim({k}, {})];
    JobIsAdded(After(claimed).value, k, token);
    GoesOn(claimed, Enqueue(k, token));
    var enqueued := claimed + [Enqueue(k, token)];
    IntentIsRemoved(After(enqueued).value, k, token);
    GoesOn(enqueued, Remove(k, token));
    more := enqueued + [Remove(k, token)];
  }

  /** An attempt throws before the last one. */
  lemma AttemptFails(schedule: seq<Step>, k: OrderId, attemptsMade: nat) returns (more: seq<Step>)
    requires After(schedule).Some? && k in After(schedule).value.jobs
    requires After(schedule).value.jobs[k] == Job(Queueing, attemptsMade)
    ensures var p := After(schedule).value;
            && After(more).Some?
            && After(more).value == p.(jobs := p.jobs[k := if attemptsMade + 1 < ATTEMPTS
                                                           then Job(Queueing, attemptsMade + 1)
                                                           else Job(Rejecting, attemptsMade)])
  {
    var started := schedule + [Start(k)];
    GoesOn(schedule, Start(k));
    more := started + [AttemptThrows(k)];
    GoesOn(started, AttemptThrows(k));
  }

  /** Every attempt throws, and so does the rejection. */
  lemma JobFails(schedule: seq<Step>, k: OrderId) returns (more: seq<Step>)
    requires After(schedule).Some? && k in After(schedule).value.jobs
    requires After(schedule).value.jobs[k] == Job(Queueing, 0)
    ensures var p := After(schedule).value;
            && After(more).Some? && After(more).value == p.(jobs := p.jobs[k := Job(Failed, ATTEMPTS - 1)])
  {
    var once := AttemptFails(schedule, k, 0);
    var twice := AttemptFails(once, k, 1);
    var thrice := AttemptFails(twice, k, 2);
    more := thrice + [RejectThrows(k)];
    GoesOn(thrice, RejectThrows(k));
  }

  lemma OneMoreFails(schedule: seq<Step>, k: nat) returns (more: seq<Step>)
    requires After(schedule).Some? && Piled(After(schedule).value, k) && k < 1_000
    ensures After(more).Some? && Piled(After(more).value, k + 1)
  {
    var accepted := schedule + [Call(SmallOrder(k))];
    GoesOn(schedule, Call(SmallOrder(k)));
    OrderIsAccepted(After(schedule).value, k);
    var dispatched := IntentIsDispatched(accepted, k);
    more := JobFails(dispatched, k);
    assert After(more).value.jobs == FailedJobs(k + 1);
  }

  lemma {:induction false} JobsPileUp(k: nat) returns (schedule: seq<Step>)
    requires k <= 1_000
    ensures After(schedule).Some? && Piled(After(schedule).value, k)
  {
    if k == 0 {
      schedule := AccountOpens();
    } else {
      var before := JobsPileUp(k - 1);
      schedule := OneMoreFails(before, k - 1);
    }
  }

  lemma {:induction false} CountFailed(k: nat)
    ensures |Finished(FailedJobs(k), Failed)| == k
  {
    if k > 0 {
      CountFailed(k - 1);
      assert Finished(FailedJobs(k), Failed) == Finished(FailedJobs(k - 1), Failed) + {k - 1};
    }
  }

  /** The order is still queued, with nothing left to match or reject it. */
  ghost predicate IsForgotten(p: Pipeline, id: OrderId) {
    IsQueued(Db(p), id) && id !in p.rows && id !in p.jobs && id in p.forgotten
  }

  lemma FirstIsEvicted(p: Pipeline, k: nat)
    requires 0 < k && Piled(p, k) && RETAINED_JOBS < |Finished(FailedJobs(k), Failed)|
    ensures Evicted(p, 0).Some? && IsForgotten(Evicted(p, 0).value, 0)
  {
    assert InState(p, 0, Failed);
    assert IsQueued(Db(p), 0);
  }

  lemma ForgottenAmong(k: nat) returns (schedule: seq<Step>)
    requires RETAINED_JOBS < k <= 1_000
    ensures After(schedule).Some? && IsForgotten(After(schedule).value, 0)
  {
    var piled := JobsPileUp(k);
    CountFailed(k);
    FirstIsEvicted(After(piled).value, k);
    schedule := piled + [Evict(0)];
    GoesOn(piled, Evict(0));
  }

  /** The hundred-and-first failed job lets the queue drop the first one, and its order with it. */
  lemma OrderIsForgotten() returns (schedule: seq<Step>)
    ensures After(schedule).Some? && IsForgotten(After(schedule).value, 0)
  {
    schedule := ForgottenAmong(RETAINED_JOBS + 1);
  }
}
