/**
 Whole runs of the realtime outbox: any number of dispatchers claim, publish,
 acknowledge and release rows, any of them may stop at any point, and time passes.
 Claim tokens are fresh and the clock never goes back.
 */
module RealtimeRuns {
  import opened Outcomes
  import opened OutboxClaims
  import opened RealtimeOutbox

  datatype Phase = Claimed | Published | Failing

  /** `appended`, `delivered`, `dead` and `failures` record the past; nothing reads them. */
  datatype World = World(
    rows: Table, claims: map<(EventId, Token), Phase>, nextToken: Token, now: Time,
    appended: set<EventId>, delivered: set<EventId>, dead: set<EventId>, failures: map<EventId, seq<Time>>)

  datatype Step =
    | Tick(ms: nat)
    | Append(id: EventId)
    | Claim(ids: set<EventId>, locked: set<EventId>)   // other statements hold `locked`
    | Publish(id: EventId, token: Token)
    | PublishFails(id: EventId, token: Token)
    | Acknowledge(id: EventId, token: Token)
    | AcknowledgeFails(id: EventId, token: Token, marked: bool)
    | Release(id: EventId, token: Token)
    | Forget(id: EventId, token: Token)       // crash, or a failed release
    | Prune(publishedCutoff: Time, deadLetterCutoff: Time)

  predicate InPhase(w: World, id: EventId, token: Token, phase: Phase) {
    (id, token) in w.claims && w.claims[(id, token)] == phase
  }

  /** What one release adds to the records. */
  function RecordRelease(w: World, id: EventId, token: Token): World {
    if HeldBy(w.rows, id, token)
    then w.(failures := w.failures[id := (if id in w.failures then w.failures[id] else []) + [w.now]],
            dead := if w.rows[id].attempts + 1 >= MAX_ATTEMPTS then w.dead + {id} else w.dead)
    else w
  }

  ghost function Next(w: World, step: Step): Option<World> {
    match step
    case Tick(ms) => Some(w.(now := w.now + ms))
    case Append(id) =>
      if id in w.appended then None
      else Some(w.(rows := w.rows[id := NEW_ROW], appended := w.appended + {id}, failures := w.failures[id := []]))
    case Claim(ids, locked) =>
      if AreOldest(Candidates(w.rows, locked, w.now), ids, BATCH_SIZE)
      then Some(w.(rows := ClaimedRows(w.rows, ids, w.nextToken, w.now),
                   claims := w.claims + map id | id in ids :: (id, w.nextToken) := Claimed,
                   nextToken := w.nextToken + 1))
      else None
    case Publish(id, token) =>
      if InPhase(w, id, token, Claimed)
      then Some(w.(claims := w.claims[(id, token) := Published], delivered := w.delivered + {id})) else None
    case PublishFails(id, token) =>
      if InPhase(w, id, token, Claimed) then Some(w.(claims := w.claims[(id, token) := Failing])) else None
    case Acknowledge(id, token) =>
      if InPhase(w, id, token, Published)
      then Some(w.(rows := MarkedAsPublished(w.rows, id, token, w.now), claims := w.claims - {(id, token)})) else None
    case AcknowledgeFails(id, token, marked) =>
      if InPhase(w, id, token, Published)
      then Some(w.(rows := if marked then MarkedAsPublished(w.rows, id, token, w.now) else w.rows,
                   claims := w.claims[(id, token) := Failing])) else None
    case Release(id, token) =>
      if InPhase(w, id, token, Failing)
      then Some(RecordRelease(w, id, token).(rows := ReleasedClaim(w.rows, id, token, w.now),
                                             claims := w.claims - {(id, token)}))
      else None
    case Forget(id, token) => Some(w.(claims := w.claims - {(id, token)}))
    case Prune(publishedCutoff, deadLetterCutoff) => Some(w.(rows := Pruned(w.rows, publishedCutoff, deadLetterCutoff)))
  }

  const INITIAL := World(map[], map[], 0, 0, {}, {}, {}, map[])

  ghost function After(schedule: seq<Step>): Option<World> {
    if schedule == [] then Some(INITIAL)
    else
      var before := After(schedule[..|schedule| - 1]);
      if before.None? then None else Next(before.value, schedule[|schedule| - 1])
  }

  // ----- the invariant of a row -----

  /** Counted failures are spaced by the backoff. */
  ghost predicate Spaced(times: seq<Time>) {
    forall k :: 0 <= k < |times| - 1 ==> times[k] + Backoff(k) <= times[k + 1]
  }

  ghost predicate RowInv(r: Row, times: seq<Time>, now: Time, nextToken: Token) {
    && r.attempts == |times| <= MAX_ATTEMPTS
    && Spaced(times)
    && (forall k :: 0 <= k < |times| ==> times[k] <= now)
    && (r.publishedAt.None? || r.deadLetteredAt.None?)
    && (r.deadLetteredAt.Some? <==> |times| == MAX_ATTEMPTS)
    && (r.deadLetteredAt.Some? ==> r.deadLetteredAt.value == times[MAX_ATTEMPTS - 1])
    && (!IsPending(r) ==> r.token.None? && r.claimedAt.None?)
    && (IsPending(r) ==>
       r.nextAttemptAt == if times == [] then None else Some(times[|times| - 1] + Backoff(|times| - 1)))
    && (r.token.Some? <==> r.claimedAt.Some?)
    && (r.token.Some? ==>
          && r.token.value < nextToken && r.claimedAt.value <= now
          && (r.nextAttemptAt.Some? ==> r.nextAttemptAt.value <= r.claimedAt.value))
  }

  ghost predicate RowsOk(w: World) {
    forall id: EventId :: id in w.rows ==> id in w.failures && RowInv(w.rows[id], w.failures[id], w.now, w.nextToken)
  }

  /** Every appended event is still pending, was published, or was dead-lettered. */
  ghost predicate NothingLost(w: World) {
    && (forall id: EventId :: id in w.appended ==>
       (id in w.rows && IsPending(w.rows[id])) || id in w.delivered || id in w.dead)
    && (forall id: EventId :: id in w.rows ==> id in w.appended)
    && (forall id: EventId :: id in w.rows && w.rows[id].publishedAt.Some? ==> id in w.delivered)
    && (forall id: EventId :: id in w.rows && w.rows[id].deadLetteredAt.Some? ==> id in w.dead)
    && (forall c: (EventId, Token) :: c in w.claims && w.claims[c] == Published ==> c.0 in w.delivered)
  }

  ghost predicate WorldInv(w: World) {
    && RowsOk(w)
    && NothingLost(w)
    && forall c: (EventId, Token) :: c in w.claims ==> c.1 < w.nextToken
  }

  // ----- steps -----

  lemma TickKeeps(w: World, ms: nat)
    requires WorldInv(w)
    ensures WorldInv(w.(now := w.now + ms))
  {
  }

  lemma ClaimKeepsRow(r: Row, times: seq<Time>, now: Time, token: Token)
    requires RowInv(r, times, now, token) && Claimable(r, now)
    ensures RowInv(ClaimedRow(r, token, now), times, now, token + 1)
  {
  }

  lemma ClaimKeepsRows(w: World, ids: set<EventId>, locked: set<EventId>)
    requires RowsOk(w) && Next(w, Claim(ids, locked)).Some?
    ensures RowsOk(Next(w, Claim(ids, locked)).value)
  {
    var w' := Next(w, Claim(ids, locked)).value;
    forall id: EventId | id in w'.rows
      ensures id in w'.failures && RowInv(w'.rows[id], w'.failures[id], w'.now, w'.nextToken)
    {
      assert RowInv(w.rows[id], w.failures[id], w.now, w.nextToken);
      if id in ids {
        ClaimKeepsRow(w.rows[id], w.failures[id], w.now, w.nextToken);
      }
    }
  }

  lemma ClaimLosesNothing(w: World, ids: set<EventId>, locked: set<EventId>)
    requires NothingLost(w) && Next(w, Claim(ids, locked)).Some?
    ensures NothingLost(Next(w, Claim(ids, locked)).value)
  {
    var w' := Next(w, Claim(ids, locked)).value;
    ClaimedRowsKeepEnds(w.rows, ids, w.nextToken, w.now);
    NothingElseLost(w, w');
  }

  /** A claim publishes, dead-letters and removes nothing. */
  lemma ClaimedRowsKeepEnds(rows: Table, ids: set<EventId>, token: Token, now: Time)
    requires ids <= rows.Keys
    ensures SameEnds(rows, ClaimedRows(rows, ids, token, now))
  {
  }

  ghost predicate SameEnds(rows: Table, rows': Table) {
    && rows'.Keys == rows.Keys
    && forall id: EventId :: id in rows ==>
         rows'[id].publishedAt == rows[id].publishedAt && rows'[id].deadLetteredAt == rows[id].deadLetteredAt
  }

  lemma NothingElseLost(w: World, w': World)
    requires NothingLost(w) && SameEnds(w.rows, w'.rows)
    requires w'.appended == w.appended && w'.delivered == w.delivered && w'.dead == w.dead
    requires forall c: (EventId, Token) :: c in w'.claims && w'.claims[c] == Published ==>
               c in w.claims && w.claims[c] == Published
    ensures NothingLost(w')
  {
  }

  lemma ClaimKeeps(w: World, ids: set<EventId>, locked: set<EventId>)
    requires WorldInv(w) && Next(w, Claim(ids, locked)).Some?
    ensures WorldInv(Next(w, Claim(ids, locked)).value)
  {
    ClaimKeepsRows(w, ids, locked);
    ClaimLosesNothing(w, ids, locked);
  }

  lemma MarkKeeps(w: World, id: EventId, token: Token)
    requires WorldInv(w) && id in w.delivered
    ensures WorldInv(w.(rows := MarkedAsPublished(w.rows, id, token, w.now)))
  {
    var w' := w.(rows := MarkedAsPublished(w.rows, id, token, w.now));
    forall i: EventId | i in w'.rows
      ensures i in w'.failures && RowInv(w'.rows[i], w'.failures[i], w'.now, w'.nextToken)
    {
      assert RowInv(w.rows[i], w.failures[i], w.now, w.nextToken);
    }
  }

  lemma ReleaseKeepsRow(r: Row, times: seq<Time>, now: Time, nextToken: Token)
    requires RowInv(r, times, now, nextToken) && r.token.Some?
    ensures r.attempts < MAX_ATTEMPTS && RowInv(ReleasedRow(r, now), times + [now], now, nextToken)
  {
  }

  lemma ReleaseKeepsRows(w: World, id: EventId, token: Token)
    requires RowsOk(w) && Next(w, Release(id, token)).Some?
    ensures RowsOk(Next(w, Release(id, token)).value)
  {
    var w' := Next(w, Release(id, token)).value;
    forall i: EventId | i in w'.rows
      ensures i in w'.failures && RowInv(w'.rows[i], w'.failures[i], w'.now, w'.nextToken)
    {
      assert RowInv(w.rows[i], w.failures[i], w.now, w.nextToken);
      if i == id && HeldBy(w.rows, id, token) {
        ReleaseKeepsRow(w.rows[i], w.failures[i], w.now, w.nextToken);
      }
    }
  }

  lemma ReleaseKeeps(w: World, id: EventId, token: Token)
    requires WorldInv(w) && Next(w, Release(id, token)).Some?
    ensures WorldInv(Next(w, Release(id, token)).value)
  {
    ReleaseKeepsRows(w, id, token);
    if HeldBy(w.rows, id, token) {
      assert RowInv(w.rows[id], w.failures[id], w.now, w.nextToken);
    }
    ReleaseLosesNothing(w, id, token);
  }

  /** The released row stays pending or is recorded as dead. */
  lemma ReleaseLosesNothing(w: World, id: EventId, token: Token)
    requires NothingLost(w) && Next(w, Release(id, token)).Some?
    requires HeldBy(w.rows, id, token) ==> IsPending(w.rows[id])
    ensures NothingLost(Next(w, Release(id, token)).value)
  {
  }

  lemma AppendKeeps(w: World, id: EventId)
    requires WorldInv(w) && Next(w, Append(id)).Some?
    ensures WorldInv(Next(w, Append(id)).value)
  {
  }

  lemma PruneKeeps(w: World, publishedCutoff: Time, deadLetterCutoff: Time)
    requires WorldInv(w)
    ensures WorldInv(w.(rows := Pruned(w.rows, publishedCutoff, deadLetterCutoff)))
  {
  }

  /** Phases of claims change, and claims end, without touching the rows. */
  lemma PhaseKeeps(w: World, id: EventId, token: Token, phase: Phase)
    requires WorldInv(w) && (id, token) in w.claims
    ensures phase == Published ==>
              WorldInv(w.(claims := w.claims[(id, token) := Published], delivered := w.delivered + {id}))
    ensures phase != Published ==> WorldInv(w.(claims := w.claims[(id, token) := phase]))
  {
    assert (id, token).1 < w.nextToken;
  }

  lemma ForgetKeeps(w: World, id: EventId, token: Token)
    requires WorldInv(w)
    ensures WorldInv(w.(claims := w.claims - {(id, token)}))
  {
  }

  lemma NextKeeps(w: World, step: Step)
    requires WorldInv(w) && Next(w, step).Some?
    ensures WorldInv(Next(w, step).value)
  {
    match step
    case Tick(ms) => TickKeeps(w, ms);
    case Append(id) => AppendKeeps(w, id);
    case Claim(ids, locked) => ClaimKeeps(w, ids, locked);
    case Publish(id, token) => PhaseKeeps(w, id, token, Published);
    case PublishFails(id, token) => PhaseKeeps(w, id, token, Failing);
    case Acknowledge(id, token) =>
      MarkKeeps(w, (id, token).0, token);
      ForgetKeeps(w.(rows := MarkedAsPublished(w.rows, id, token, w.now)), id, token);
    case AcknowledgeFails(id, token, marked) =>
      MarkKeeps(w, (id, token).0, token);
      PhaseKeeps(if marked then w.(rows := MarkedAsPublished(w.rows, id, token, w.now)) else w, id, token, Failing);
    case Release(id, token) => ReleaseKeeps(w, id, token);
    case Forget(id, token) => ForgetKeeps(w, id, token);
    case Prune(publishedCutoff, deadLetterCutoff) => PruneKeeps(w, publishedCutoff, deadLetterCutoff);
  }

  lemma {:induction false} SchedulesKeep(schedule: seq<Step>)
    requires After(schedule).Some?
    ensures WorldInv(After(schedule).value)
  {
    if schedule != [] {
      var n := |schedule| - 1;
      SchedulesKeep(schedule[..n]);
      NextKeeps(After(schedule[..n]).value, schedule[n]);
    }
  }

  // ----- backoff over whole runs -----

  /** The delays 2, 4, 8, 16, 32 and then four times 60 seconds. */
  lemma BackoffsAddUp(times: seq<Time>)
    requires Spaced(times) && |times| == MAX_ATTEMPTS
    ensures times[0] + 302_000 <= times[9]
  {
    assert Pow2(1) == 2;
    assert Pow2(2) == 4;
    assert Pow2(3) == 8;
    assert Pow2(4) == 16;
    assert Pow2(5) == 32;
    assert Pow2(6) == 64;
    assert Pow2(7) == 128;
    assert Pow2(8) == 256;
    assert times[0] + Backoff(0) <= times[1];
    assert times[1] + Backoff(1) <= times[2];
    assert times[2] + Backoff(2) <= times[3];
    assert times[3] + Backoff(3) <= times[4];
    assert times[4] + Backoff(4) <= times[5];
    assert times[5] + Backoff(5) <= times[6];
    assert times[6] + Backoff(6) <= times[7];
    assert times[7] + Backoff(7) <= times[8];
    assert times[8] + Backoff(8) <= times[9];
  }

  /**
   In every run: attempt_count never exceeds ten, a row is dead-lettered exactly when it
   has ten counted failures, at least 302 seconds after the first, and no row is both
   published and dead-lettered.
   */
  lemma BackoffOverRuns(schedule: seq<Step>, id: EventId)
    requires After(schedule).Some? && id in After(schedule).value.rows
    ensures var w := After(schedule).value;
            var r := w.rows[id];
            && id in w.failures && r.attempts == |w.failures[id]| <= MAX_ATTEMPTS
            && (r.deadLetteredAt.Some? <==> r.attempts == MAX_ATTEMPTS)
            && (r.deadLetteredAt.Some? ==> w.failures[id][0] + 302_000 <= r.deadLetteredAt.value)
            && (r.publishedAt.None? || r.deadLetteredAt.None?)
  {
    SchedulesKeep(schedule);
    var w := After(schedule).value;
    assert RowInv(w.rows[id], w.failures[id], w.now, w.nextToken);
    if w.rows[id].deadLetteredAt.Some? {
      BackoffsAddUp(w.failures[id]);
    }
  }

  /** Nothing is silently lost, even after pruning. */
  lemma NoEventIsLost(schedule: seq<Step>, id: EventId)
    requires After(schedule).Some? && id in After(schedule).value.appended
    ensures var w := After(schedule).value;
            (id in w.rows && IsPending(w.rows[id])) || id in w.delivered || id in w.dead
  {
    SchedulesKeep(schedule);
  }

  /**
   Whatever becomes of its dispatcher and of all other rows, a pending row found as it was
   a minute and a millisecond earlier is a candidate again; and with fewer older candidates
   than a batch holds, the next claim takes it.
   */
  lemma PendingIsClaimedAgain(schedule: seq<Step>, more: seq<Step>, id: EventId, ids: set<EventId>,
                              locked: set<EventId>)
    requires After(schedule).Some? && After(schedule + more).Some?
    requires var w, w' := After(schedule).value, After(schedule + more).value;
             && id in w.rows && id in w'.rows && w'.rows[id] == w.rows[id] && IsPending(w.rows[id])
             && w.now + 60_001 <= w'.now && id !in locked
    ensures var w' := After(schedule + more).value;
            var candidates := Candidates(w'.rows, locked, w'.now);
            && id in candidates
            && (AreOldest(candidates, ids, BATCH_SIZE) && |Older(candidates, id)| < BATCH_SIZE ==> id in ids)
  {
    SchedulesKeep(schedule);
    var w, w' := After(schedule).value, After(schedule + more).value;
    PendingIsClaimable(w.rows[id], w.failures[id], w.now, w.nextToken, w'.now - w.now);
    var candidates := Candidates(w'.rows, locked, w'.now);
    if AreOldest(candidates, ids, BATCH_SIZE) && |Older(candidates, id)| < BATCH_SIZE {
      TakenIfFewAreOlder(candidates, ids, BATCH_SIZE, id);
    }
  }

  lemma PendingIsClaimable(r: Row, times: seq<Time>, now: Time, nextToken: Token, ms: nat)
    requires RowInv(r, times, now, nextToken) && IsPending(r) && 60_001 <= ms
    ensures Claimable(r, now + ms)
  {
  }

  /**
   The retry is exact: a pending row with `k` failures, and no lease of the last thirty
   seconds, may be claimed from its last failure plus 2, 4, 8, 16 or 32 seconds for the first
   five failures, plus 60 for each later one, and at no earlier time.
   */
  lemma RetriesAreExact(schedule: seq<Step>, id: EventId, at: Time, locked: set<EventId>)
    requires After(schedule).Some? && id in After(schedule).value.rows
    requires var r := After(schedule).value.rows[id];
             && r.publishedAt.None? && r.deadLetteredAt.None?
             && (r.claimedAt.Some? ==> r.claimedAt.value + 30_000 < at)
    ensures var w := After(schedule).value;
            id in w.failures
            && var times, k := w.failures[id], |w.failures[id]|;
               && k < 10
               && (id in Candidates(w.rows, locked, at) <==>
                   && id !in locked
                   && (0 < k <= 5 ==> times[k - 1] + [2_000, 4_000, 8_000, 16_000, 32_000][k - 1] <= at)
                   && (5 < k ==> times[k - 1] + 60_000 <= at))
  {
    SchedulesKeep(schedule);
    BackoffDoubles();
    var w := After(schedule).value;
    assert RowInv(w.rows[id], w.failures[id], w.now, w.nextToken);
  }

  // ----- fencing -----

  /** A token that no longer holds a row never holds it again. */
  lemma TokenStaysGone(w: World, step: Step, id: EventId, token: Token)
    requires WorldInv(w) && Next(w, step).Some? && token < w.nextToken && !HeldBy(w.rows, id, token)
    ensures !HeldBy(Next(w, step).value.rows, id, token) && token < Next(w, step).value.nextToken
  {
  }

  lemma {:induction false} TokenStaysGoneOver(schedule: seq<Step>, more: seq<Step>, id: EventId, token: Token)
    requires After(schedule).Some? && After(schedule + more).Some?
    requires token < After(schedule).value.nextToken && !HeldBy(After(schedule).value.rows, id, token)
    ensures !HeldBy(After(schedule + more).value.rows, id, token)
    ensures token < After(schedule + more).value.nextToken
    decreases |more|
  {
    if more == [] {
      assert schedule + more == schedule;
    } else {
      var n := |more| - 1;
      assert (schedule + more)[..|schedule + more| - 1] == schedule + more[..n];
      TokenStaysGoneOver(schedule, more[..n], id, token);
      SchedulesKeep(schedule + more[..n]);
      TokenStaysGone(After(schedule + more[..n]).value, more[n], id, token);
    }
  }

  /**
   Fenced leases: once a row has been claimed again, whatever the earlier holder still
   does with its token - at any later time - leaves the whole table as it is.
   */
  lemma EarlierHolderIsFenced(schedule: seq<Step>, more: seq<Step>, id: EventId, earlier: Token)
    requires After(schedule).Some? && After(schedule + more).Some?
    requires id in After(schedule).value.rows && After(schedule).value.rows[id].token.Some?
    requires earlier != After(schedule).value.rows[id].token.value && earlier < After(schedule).value.nextToken
    ensures var w := After(schedule + more).value;
            && MarkedAsPublished(w.rows, id, earlier, w.now) == w.rows
            && ReleasedClaim(w.rows, id, earlier, w.now) == w.rows
  {
    TokenStaysGoneOver(schedule, more, id, earlier);
  }

  // ----- a claim runs to its end -----

  lemma OneMoreStep(schedule: seq<Step>, step: Step)
    requires After(schedule).Some?
    ensures After(schedule + [step]) == Next(After(schedule).value, step)
  {
    assert (schedule + [step])[..|schedule|] == schedule;
  }

  lemma RowIsClaimed(w: World, ids: set<EventId>, locked: set<EventId>, id: EventId)
    requires AreOldest(Candidates(w.rows, locked, w.now), ids, BATCH_SIZE) && id in ids && RowsOk(w)
    ensures Next(w, Claim(ids, locked)).Some?
    ensures var w' := Next(w, Claim(ids, locked)).value;
            && InPhase(w', id, w.nextToken, Claimed) && HeldBy(w'.rows, id, w.nextToken)
            && id in w'.failures && id in w.failures && id in w.rows
            && w'.rows[id].attempts == w.rows[id].attempts && w'.failures[id] == w.failures[id] && w'.now == w.now
  {
    assert RowInv(w.rows[id], w.failures[id], w.now, w.nextToken);
  }

  lemma ClaimIsPublished(w: World, id: EventId, token: Token)
    requires InPhase(w, id, token, Claimed) && HeldBy(w.rows, id, token)
    ensures Next(w, Publish(id, token)).Some?
    ensures var v := Next(w, Publish(id, token)).value;
            && Next(v, Acknowledge(id, token)).Some?
            && var w' := Next(v, Acknowledge(id, token)).value;
               id in w'.rows && w'.rows[id].publishedAt == Some(w.now) && id in w'.delivered
  {
  }

  lemma ClaimIsReleased(w: World, id: EventId, token: Token)
    requires InPhase(w, id, token, Claimed) && HeldBy(w.rows, id, token) && id in w.failures
    ensures Next(w, PublishFails(id, token)).Some?
    ensures var v := Next(w, PublishFails(id, token)).value;
            && Next(v, Release(id, token)).Some?
            && var w' := Next(v, Release(id, token)).value;
               && id in w'.rows && id in w'.failures
               && w'.rows[id].attempts == w.rows[id].attempts + 1 && w'.rows[id].token.None?
               && w'.failures[id] == w.failures[id] + [w.now]
  {
  }

  /** From every reachable table a claimed row can be published and acknowledged, which publishes it for good. */
  lemma ClaimsCanBePublished(schedule: seq<Step>, ids: set<EventId>, locked: set<EventId>, id: EventId)
    returns (longer: seq<Step>)
    requires After(schedule).Some? && id in ids
    requires AreOldest(Candidates(After(schedule).value.rows, locked, After(schedule).value.now), ids, BATCH_SIZE)
    ensures After(longer).Some?
    ensures var w' := After(longer).value;
            id in w'.rows && w'.rows[id].publishedAt == Some(After(schedule).value.now) && id in w'.delivered
  {
    var w := After(schedule).value;
    SchedulesKeep(schedule);
    RowIsClaimed(w, ids, locked, id);
    OneMoreStep(schedule, Claim(ids, locked));
    longer := schedule + [Claim(ids, locked)];
    ClaimIsPublished(After(longer).value, id, w.nextToken);
    OneMoreStep(longer, Publish(id, w.nextToken));
    longer := longer + [Publish(id, w.nextToken)];
    OneMoreStep(longer, Acknowledge(id, w.nextToken));
    longer := longer + [Acknowledge(id, w.nextToken)];
  }

  /** Or its publication fails and it is released, which counts exactly one failure more. */
  lemma ClaimsCanBeReleased(schedule: seq<Step>, ids: set<EventId>, locked: set<EventId>, id: EventId)
    returns (longer: seq<Step>)
    requires After(schedule).Some? && id in ids
    requires AreOldest(Candidates(After(schedule).value.rows, locked, After(schedule).value.now), ids, BATCH_SIZE)
    ensures After(longer).Some?
    ensures OneMoreFailure(After(schedule).value, After(longer).value, id)
  {
    var w := After(schedule).value;
    SchedulesKeep(schedule);
    RowIsClaimed(w, ids, locked, id);
    OneMoreStep(schedule, Claim(ids, locked));
    longer := schedule + [Claim(ids, locked)];
    ClaimIsReleased(After(longer).value, id, w.nextToken);
    OneMoreStep(longer, PublishFails(id, w.nextToken));
    longer := longer + [PublishFails(id, w.nextToken)];
    OneMoreStep(longer, Release(id, w.nextToken));
    longer := longer + [Release(id, w.nextToken)];
  }

  ghost predicate OneMoreFailure(w: World, w': World, id: EventId) {
    && id in w.rows && id in w.failures && id in w'.rows && id in w'.failures
    && w'.rows[id].attempts == w.rows[id].attempts + 1 && w'.rows[id].token.None?
    && w'.failures[id] == w.failures[id] + [w.now]
  }
}
