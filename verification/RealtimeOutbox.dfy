/** The realtime outbox table and its statements. Times are in milliseconds. */
module RealtimeOutbox {
  import opened Outcomes
  import opened OutboxClaims

  type EventId = RowId

  const BATCH_SIZE: nat := 50
  const CLAIM_TIMEOUT: nat := 30_000
  const RETRY_DELAY: nat := 2_000
  const MAX_RETRY_DELAY: nat := 60_000
  const MAX_ATTEMPTS: nat := 10

  datatype Row = Row(
    attempts: nat, token: Option<Token>, claimedAt: Option<Time>, nextAttemptAt: Option<Time>,
    publishedAt: Option<Time>, deadLetteredAt: Option<Time>)

  type Table = map<EventId, Row>

  const NEW_ROW := Row(0, None, None, None, None, None)

  function Pow2(n: nat): (r: nat)
    ensures 0 < r
  {
    if n == 0 then 1 else 2 * Pow2(n - 1)
  }

  /** LEAST(retryDelay · 2^attempts, maxRetryDelay). */
  function Backoff(attempts: nat): (d: nat)
    ensures RETRY_DELAY <= d <= MAX_RETRY_DELAY
  {
    var d := RETRY_DELAY * Pow2(attempts);
    if d < MAX_RETRY_DELAY then d else MAX_RETRY_DELAY
  }

  predicate IsPending(r: Row) {
    r.publishedAt.None? && r.deadLetteredAt.None?
  }

  predicate Claimable(r: Row, now: Time) {
    && IsPending(r)
    && (r.nextAttemptAt.None? || r.nextAttemptAt.value <= now)
    && (r.claimedAt.None? || r.claimedAt.value + CLAIM_TIMEOUT < now)
  }

  /** Pending, with no lease of the last thirty seconds and no retry still ahead. */
  ghost predicate IsDue(r: Row, now: Time) {
    && r.publishedAt.None? && r.deadLetteredAt.None?
    && (r.claimedAt.Some? ==> r.claimedAt.value + 30_000 < now)
    && (r.nextAttemptAt.Some? ==> r.nextAttemptAt.value <= now)
  }

  /** The retry delays, in numbers. */
  lemma BackoffDoubles()
    ensures Backoff(0) == 2_000 && Backoff(1) == 4_000 && Backoff(2) == 8_000 && Backoff(3) == 16_000
    ensures Backoff(4) == 32_000
    ensures forall attempts :: 5 <= attempts ==> Backoff(attempts) == 60_000
  {
    forall attempts | 5 <= attempts
      ensures Backoff(attempts) == 60_000
    {
      PowersGrow(5, attempts);
    }
  }

  lemma {:induction false} PowersGrow(m: nat, n: nat)
    requires m <= n
    ensures Pow2(m) <= Pow2(n)
  {
    if m < n {
      PowersGrow(m, n - 1);
    }
  }

  predicate HeldBy(rows: Table, id: EventId, token: Token) {
    id in rows && rows[id].token == Some(token)
  }

  /** The rows a claim may take. */
  function Candidates(rows: Table, locked: set<EventId>, now: Time): set<EventId> {
    set id | id in rows && id !in locked && Claimable(rows[id], now)
  }

  /** The oldest candidates, in numbers. */
  lemma OldestAreDue(rows: Table, locked: set<RowId>, now: Time, batch: seq<RowId>)
    requires Distinct(batch) && AreOldest(Candidates(rows, locked, now), Ids(batch), BATCH_SIZE)
    ensures |batch| <= 50 && forall id :: id in batch ==> id in rows && id !in locked && IsDue(rows[id], now)
    ensures forall id :: id in rows && id !in locked && IsDue(rows[id], now) && id !in batch ==>
              |batch| == 50 && forall taken :: taken in batch ==> taken < id
  {
    SizeOfBatch(batch);
    forall id | id in batch
      ensures id in rows && id !in locked && IsDue(rows[id], now)
    {
      assert id in Ids(batch);
    }
    forall id | id in rows && id !in locked && IsDue(rows[id], now) && id !in batch
      ensures |batch| == 50 && forall taken :: taken in batch ==> taken < id
    {
      assert id in Candidates(rows, locked, now) - Ids(batch);
      assert forall taken :: taken in batch ==> taken in Ids(batch);
    }
  }

  function ClaimedRow(r: Row, token: Token, now: Time): Row {
    r.(claimedAt := Some(now), token := Some(token))
  }

  function ClaimedRows(rows: Table, ids: set<EventId>, token: Token, now: Time): Table
    requires ids <= rows.Keys
  {
    rows + map id | id in ids :: ClaimedRow(rows[id], token, now)
  }

  function PublishedRow(r: Row, now: Time): Row {
    r.(publishedAt := Some(now), claimedAt := None, token := None, nextAttemptAt := None)
  }

  /** The tenth counted failure dead-letters the row; the others schedule a retry. */
  function ReleasedRow(r: Row, now: Time): Row {
    var attempts := r.attempts + 1;
    r.(attempts := attempts, claimedAt := None, token := None,
       nextAttemptAt := if attempts >= MAX_ATTEMPTS then None else Some(now + Backoff(r.attempts)),
       deadLetteredAt := if attempts >= MAX_ATTEMPTS then Some(now) else None)
  }

  function MarkedAsPublished(rows: Table, id: EventId, token: Token, now: Time): Table {
    if HeldBy(rows, id, token) then rows[id := PublishedRow(rows[id], now)] else rows
  }

  function ReleasedClaim(rows: Table, id: EventId, token: Token, now: Time): Table {
    if HeldBy(rows, id, token) then rows[id := ReleasedRow(rows[id], now)] else rows
  }

  predicate Expired(r: Row, publishedCutoff: Time, deadLetterCutoff: Time) {
    || (r.publishedAt.Some? && r.publishedAt.value <= publishedCutoff)
    || (r.deadLetteredAt.Some? && r.deadLetteredAt.value <= deadLetterCutoff)
  }

  function Pruned(rows: Table, publishedCutoff: Time, deadLetterCutoff: Time): Table {
    map id | id in rows && !Expired(rows[id], publishedCutoff, deadLetterCutoff) :: rows[id]
  }

  /** The repository: every statement changes the stored table in place. */
  class Repository {
    var rows: Table

    constructor ()
      ensures rows == map[]
    {
      rows := map[];
    }

    method InsertEvents(ids: seq<EventId>)
      requires forall k :: 0 <= k < |ids| ==> ids[k] !in rows
      modifies this
      ensures rows == old(rows) + map id | id in ids :: NEW_ROW
      ensures rows.Keys == old(rows).Keys + Ids(ids)
      ensures forall id :: id in rows ==> rows[id] == if id in ids then Row(0, None, None, None, None, None)
                                                      else old(rows)[id]
    {
      var k := 0;
      while k < |ids|
        invariant k <= |ids|
        invariant rows == old(rows) + map id | id in ids[..k] :: NEW_ROW
      {
        rows := rows[ids[k] := NEW_ROW];
        assert ids[..k + 1] == ids[..k] + [ids[k]];
        k := k + 1;
      }
      assert ids[..k] == ids;
    }

    /** One statement: it skips the rows other statements have locked. */
    method ClaimNextBatch(token: Token, now: Time, locked: set<EventId>) returns (batch: seq<EventId>)
      modifies this
      ensures Distinct(batch) && AreOldest(Candidates(old(rows), locked, now), Ids(batch), BATCH_SIZE)
      ensures rows == ClaimedRows(old(rows), Ids(batch), token, now)
      ensures |batch| <= 50
      ensures forall id :: id in batch ==> id in old(rows) && id !in locked && IsDue(old(rows)[id], now)
      ensures forall id :: id in old(rows) && id !in locked && IsDue(old(rows)[id], now) && id !in batch ==>
                |batch| == 50 && forall taken :: taken in batch ==> taken < id
      ensures rows.Keys == old(rows).Keys
      ensures forall id :: id in rows ==>
                rows[id] == if id in batch then old(rows)[id].(claimedAt := Some(now), token := Some(token))
                            else old(rows)[id]
    {
      batch := TakeOldest(Candidates(rows, locked, now), BATCH_SIZE);
      OldestAreDue(rows, locked, now, batch);
      rows := ClaimedRows(rows, Ids(batch), token, now);
    }

    /** Only the holder of the token publishes the row. */
    method MarkAsPublished(id: EventId, token: Token, now: Time)
      modifies this
      ensures !HeldBy(old(rows), id, token) ==> rows == old(rows)
      ensures rows.Keys == old(rows).Keys
      ensures forall other :: other in rows && other != id ==> rows[other] == old(rows)[other]
      ensures HeldBy(old(rows), id, token) ==>
        && rows[id].publishedAt == Some(now)
        && rows[id].token == None && rows[id].claimedAt == None && rows[id].nextAttemptAt == None
        && rows[id].attempts == old(rows)[id].attempts && rows[id].deadLetteredAt == old(rows)[id].deadLetteredAt
      ensures rows == MarkedAsPublished(old(rows), id, token, now)
    {
      if id in rows && rows[id].token == Some(token) {
        var row := rows[id];
        rows := rows[id := Row(row.attempts, None, None, None, Some(now), row.deadLetteredAt)];
      }
    }

    /** Only the holder of the token ends the lease; the tenth failure is the last. */
    method ReleaseClaim(id: EventId, token: Token, now: Time)
      modifies this
      ensures !HeldBy(old(rows), id, token) ==> rows == old(rows)
      ensures rows.Keys == old(rows).Keys
      ensures forall other :: other in rows && other != id ==> rows[other] == old(rows)[other]
      ensures HeldBy(old(rows), id, token) ==>
        && rows[id].attempts == old(rows)[id].attempts + 1
        && rows[id].token == None && rows[id].claimedAt == None
        && rows[id].publishedAt == old(rows)[id].publishedAt
        && (rows[id].attempts < 10 ==>
              && rows[id].deadLetteredAt == None
              && rows[id].nextAttemptAt == Some(now + if rows[id].attempts <= 5
                 then [2_000, 4_000, 8_000, 16_000, 32_000][rows[id].attempts - 1] else 60_000))
        && (10 <= rows[id].attempts ==> rows[id].deadLetteredAt == Some(now) && rows[id].nextAttemptAt == None)
      ensures rows == ReleasedClaim(old(rows), id, token, now)
    {
      BackoffDoubles();
      if id in rows && rows[id].token == Some(token) {
        var row := rows[id];
        var attempts := row.attempts + 1;
        var exhausted := attempts >= MAX_ATTEMPTS;
        rows := rows[id := Row(
          attempts, None, None,
          if exhausted then None else Some(now + Backoff(row.attempts)),
          row.publishedAt,
          if exhausted then Some(now) else None)];
      }
    }

    /** What stays is exactly what has not expired, unchanged; nothing pending ever goes. */
    method PruneExpiredEvents(publishedCutoff: Time, deadLetterCutoff: Time)
      modifies this
      ensures forall id :: id in rows <==>
        && id in old(rows)
        && (old(rows)[id].publishedAt.Some? ==> publishedCutoff < old(rows)[id].publishedAt.value)
        && (old(rows)[id].deadLetteredAt.Some? ==> deadLetterCutoff < old(rows)[id].deadLetteredAt.value)
      ensures forall id :: id in rows ==> rows[id] == old(rows)[id]
      ensures forall id :: id in old(rows) && IsPending(old(rows)[id]) ==> id in rows
      ensures rows == Pruned(old(rows), publishedCutoff, deadLetterCutoff)
    {
      rows := map id | id in rows && !Expired(rows[id], publishedCutoff, deadLetterCutoff) :: rows[id];
    }
  }

  // ----- dispatching -----

  /** What happens to one claimed row: how far publishing and its acknowledgement got. */
  datatype Delivery =
    | Acknowledged                          // published and marked
    | Unpublished(released: bool)           // publishing failed; was the claim released?
    | Unacknowledged(marked: bool, released: bool)  // published, but marking it threw, before or after taking effect

  function DeliveredRow(rows: Table, id: EventId, token: Token, now: Time, d: Delivery): Table {
    match d
    case Acknowledged => MarkedAsPublished(rows, id, token, now)
    case Unpublished(released) => if released then ReleasedClaim(rows, id, token, now) else rows
    case Unacknowledged(marked, released) =>
      var rows' := if marked then MarkedAsPublished(rows, id, token, now) else rows;
      if released then ReleasedClaim(rows', id, token, now) else rows'
  }

  method DispatchRow(repository: Repository, id: EventId, token: Token, now: Time, d: Delivery) returns (failed: bool)
    modifies repository
    ensures failed <==> d != Acknowledged
    ensures repository.rows == DeliveredRow(old(repository.rows), id, token, now, d)
  {
    if d.Acknowledged? || (d.Unacknowledged? && d.marked) {
      repository.MarkAsPublished(id, token, now);
    }
    failed := !d.Acknowledged?;
    if failed && d.released {
      repository.ReleaseClaim(id, token, now);
    }
  }

  /** What becomes of a claimed row, by its own delivery alone. */
  function RowAfter(r: Row, now: Time, d: Delivery): Row {
    if d.Acknowledged? || (d.Unacknowledged? && d.marked) then PublishedRow(r, now)
    else if d.released then ReleasedRow(r, now)
    else r
  }

  predicate AllAcknowledged(ids: set<EventId>, deliveries: EventId -> Delivery) {
    forall id :: id in ids ==> deliveries(id) == Acknowledged
  }

  /** The rows of `batch` each ended by its own delivery. */
  ghost function Delivered(before: Table, batch: set<EventId>, now: Time, deliveries: EventId -> Delivery): Table {
    map id | id in before :: if id in batch then RowAfter(before[id], now, deliveries(id)) else before[id]
  }

  lemma DeliverOne(before: Table, batch: set<EventId>, id: EventId, token: Token, now: Time,
          deliveries: EventId -> Delivery)
    requires id !in batch && HeldBy(before, id, token)
    ensures DeliveredRow(Delivered(before, batch, now, deliveries), id, token, now, deliveries(id))
         == Delivered(before, batch + {id}, now, deliveries)
  {
  }

  /** Published now, with its lease and retry gone. */
  ghost predicate HasBeenPublished(r: Row, r': Row, now: Time) {
    r' == Row(r.attempts, None, None, None, Some(now), r.deadLetteredAt)
  }

  /** One more failure is counted and the lease is gone; or, if releasing it failed, nothing has changed. */
  ghost predicate HasFailed(r: Row, r': Row, now: Time, released: bool) {
    if released
    then && r'.attempts == r.attempts + 1 && r'.token.None? && r'.claimedAt.None? && r'.publishedAt == r.publishedAt
         && (r'.deadLetteredAt == if 10 <= r'.attempts then Some(now) else None)
         && (r'.nextAttemptAt.Some? <==> r'.attempts < 10)
    else r' == r
  }

  /** How one row of the batch ended. */
  ghost predicate RowEnded(r: Row, r': Row, now: Time, d: Delivery) {
    match d
    case Acknowledged => HasBeenPublished(r, r', now)
    case Unpublished(released) => HasFailed(r, r', now, released)
    case Unacknowledged(marked, released) =>
      if marked then HasBeenPublished(r, r', now) else HasFailed(r, r', now, released)
  }

  /** Each row of the batch ended its own way; the others are as they were. */
  ghost predicate BatchEnded(rows: Table, rows': Table, batch: seq<EventId>, now: Time,
          deliveries: EventId -> Delivery)
  {
    && rows'.Keys == rows.Keys
    && (forall id :: id in rows && id !in batch ==> rows'[id] == rows[id])
    && (forall id :: id in batch ==> id in rows && RowEnded(rows[id], rows'[id], now, deliveries(id)))
  }

  lemma DeliveriesEndBatch(rows: Table, batch: seq<EventId>, token: Token, now: Time,
          deliveries: EventId -> Delivery)
    requires forall id :: id in batch ==> HeldBy(rows, id, token)
    ensures BatchEnded(rows, Delivered(rows, Ids(batch), now, deliveries), batch, now, deliveries)
  {
    forall id | id in batch
      ensures id in rows && id in Ids(batch)
      ensures RowEnded(rows[id], RowAfter(rows[id], now, deliveries(id)), now, deliveries(id))
    {
      assert HeldBy(rows, id, token);
    }
  }

  /**
   The loop over a claimed batch: a failed row is released and the others still go out, so
   every row ends as its own delivery makes it.
   */
  method DispatchBatch(repository: Repository, batch: seq<EventId>, token: Token, now: Time,
          deliveries: EventId -> Delivery)
    returns (hasFailedDispatch: bool)
    requires Distinct(batch) && forall id :: id in batch ==> HeldBy(repository.rows, id, token)
    modifies repository
    ensures hasFailedDispatch <==> !AllAcknowledged(Ids(batch), deliveries)
    ensures repository.rows == Delivered(old(repository.rows), Ids(batch), now, deliveries)
    ensures BatchEnded(old(repository.rows), repository.rows, batch, now, deliveries)
  {
    hasFailedDispatch := false;
    ghost var before := repository.rows;
    var k := 0;
    while k < |batch|
      invariant k <= |batch|
      invariant repository.rows == Delivered(before, Ids(batch[..k]), now, deliveries)
      invariant hasFailedDispatch <==> !AllAcknowledged(Ids(batch[..k]), deliveries)
    {
      var id := batch[k];
      assert id in batch && id !in Ids(batch[..k]);
      DeliverOne(before, Ids(batch[..k]), id, token, now, deliveries);
      var failed := DispatchRow(repository, id, token, now, deliveries(id));
      hasFailedDispatch := hasFailedDispatch || failed;
      assert batch[..k + 1] == batch[..k] + [id] && Ids(batch[..k + 1]) == Ids(batch[..k]) + {id};
      k := k + 1;
    }
    assert batch[..k] == batch;
    DeliveriesEndBatch(before, batch, token, now, deliveries);
  }

  /** The table midway: `done` is published, `batch` is claimed or, if dispatching it failed, delivered. */
  ghost function Midway(before: Table, done: set<EventId>, batch: set<EventId>, token: Token, now: Time,
                        failed: bool, deliveries: EventId -> Delivery): Table
  {
    map id | id in before ::
      if id in done then PublishedRow(before[id], now)
      else if id in batch then
        (if failed then RowAfter(ClaimedRow(before[id], token, now), now, deliveries(id))
          else ClaimedRow(before[id], token, now))
      else before[id]
  }

  lemma NothingDoneYet(before: Table, now: Time, deliveries: EventId -> Delivery)
    ensures Midway(before, {}, {}, 0, now, false, deliveries) == before
  {
  }

  lemma ClaimMidway(before: Table, done: set<EventId>, batch: set<EventId>, token: Token, now: Time,
          deliveries: EventId -> Delivery)
    requires batch <= before.Keys && batch !! done
    ensures ClaimedRows(Midway(before, done, {}, 0, now, false, deliveries), batch, token, now)
         == Midway(before, done, batch, token, now, false, deliveries)
    ensures forall id :: id in batch ==> HeldBy(Midway(before, done, batch, token, now, false, deliveries), id, token)
  {
  }

  lemma DeliverMidway(before: Table, done: set<EventId>, batch: set<EventId>, token: Token, now: Time,
          deliveries: EventId -> Delivery)
    requires batch <= before.Keys && batch !! done
    ensures Delivered(Midway(before, done, batch, token, now, false, deliveries), batch, now, deliveries)
         == Midway(before, done, batch, token, now, true, deliveries)
    ensures AllAcknowledged(batch, deliveries) ==>
              Midway(before, done, batch, token, now, true, deliveries)
                == Midway(before, done + batch, {}, 0, now, false, deliveries)
  {
  }

  /** Published rows are no candidates any more; the others stay so. */
  lemma CandidatesMidway(before: Table, done: set<EventId>, now: Time, locked: set<EventId>,
          deliveries: EventId -> Delivery)
    requires done <= Candidates(before, locked, now)
    ensures Candidates(Midway(before, done, {}, 0, now, false, deliveries), locked, now)
            == Candidates(before, locked, now) - done
  {
  }

  /**
   Of the candidates the loop published its first `rounds` batches and stopped after the next
   one, `batch`, which did not go out as a whole; every later candidate is as it was.
   */
  ghost predicate StoppedAt(before: Table, rows: Table, candidates: set<EventId>, rounds: nat, done: set<EventId>,
          batch: set<EventId>, firstToken: Token, token: Token, now: Time, deliveries: EventId -> Delivery)
  {
    && token == firstToken + rounds
    && AreOldest(candidates, done, rounds * BATCH_SIZE)
    && AreOldest(candidates - done, batch, BATCH_SIZE)
    && AllAcknowledged(done, deliveries) && !AllAcknowledged(batch, deliveries)
    && rows == Midway(before, done, batch, token, now, true, deliveries)
  }

  ghost predicate Stopped(before: Table, rows: Table, candidates: set<EventId>, firstToken: Token, now: Time,
          deliveries: EventId -> Delivery)
  {
    exists rounds, done, batch, token ::
      StoppedAt(before, rows, candidates, rounds, done, batch, firstToken, token, now, deliveries)
  }

  /** The dispatch loop before each round: `batch` is claimed and not yet dispatched. */
  ghost predicate RoundStarts(before: Table, rows: Table, candidates: set<EventId>, rounds: nat, done: set<EventId>,
          batch: seq<EventId>, firstToken: Token, token: Token, now: Time, deliveries: EventId -> Delivery)
  {
    && candidates <= before.Keys && token == firstToken + rounds
    && AreOldest(candidates, done, rounds * BATCH_SIZE)
    && AreOldest(candidates - done, Ids(batch), BATCH_SIZE) && Distinct(batch)
    && AllAcknowledged(done, deliveries)
    && (forall id :: id in batch ==> HeldBy(rows, id, token))
    && rows == Midway(before, done, Ids(batch), token, now, false, deliveries)
  }

  lemma ClaimStartsRound(before: Table, candidates: set<EventId>, rounds: nat, done: set<EventId>, batch: seq<EventId>,
          firstToken: Token, token: Token, now: Time, locked: set<EventId>, deliveries: EventId -> Delivery)
    requires token == firstToken + rounds && candidates == Candidates(before, locked, now)
    requires AreOldest(candidates, done, rounds * BATCH_SIZE) && AllAcknowledged(done, deliveries) && Distinct(batch)
    requires var rows := Midway(before, done, {}, 0, now, false, deliveries);
             AreOldest(Candidates(rows, locked, now), Ids(batch), BATCH_SIZE)
    ensures var rows := Midway(before, done, {}, 0, now, false, deliveries);
            && Ids(batch) <= rows.Keys
            && RoundStarts(before, ClaimedRows(rows, Ids(batch), token, now), candidates, rounds, done, batch,
                           firstToken, token, now, deliveries)
  {
    CandidatesMidway(before, done, now, locked, deliveries);
    ClaimMidway(before, done, Ids(batch), token, now, deliveries);
  }

  lemma RoundEnds(before: Table, rows: Table, candidates: set<EventId>, rounds: nat, done: set<EventId>,
          batch: seq<EventId>, firstToken: Token, token: Token, now: Time, deliveries: EventId -> Delivery)
    requires RoundStarts(before, rows, candidates, rounds, done, batch, firstToken, token, now, deliveries)
    ensures Ids(batch) <= candidates - done
    ensures var later := Delivered(rows, Ids(batch), now, deliveries);
            if AllAcknowledged(Ids(batch), deliveries)
            then later == Midway(before, done + Ids(batch), {}, 0, now, false, deliveries)
            else Stopped(before, later, candidates, firstToken, now, deliveries)
  {
    DeliverMidway(before, done, Ids(batch), token, now, deliveries);
    if !AllAcknowledged(Ids(batch), deliveries) {
      assert StoppedAt(before, Delivered(rows, Ids(batch), now, deliveries), candidates, rounds, done, Ids(batch),
                       firstToken, token, now, deliveries);
    }
  }

  /** What the loop needs to go round once more. */
  lemma RoundGoesOn(before: Table, rows: Table, candidates: set<EventId>, rounds: nat, done: set<EventId>,
          batch: seq<EventId>, firstToken: Token, token: Token, now: Time, deliveries: EventId -> Delivery)
    requires RoundStarts(before, rows, candidates, rounds, done, batch, firstToken, token, now, deliveries)
             && batch != []
    ensures AreOldest(candidates, done + Ids(batch), (rounds + 1) * BATCH_SIZE)
    ensures |candidates - (done + Ids(batch))| < |candidates - done|
    ensures AllAcknowledged(Ids(batch), deliveries) ==> AllAcknowledged(done + Ids(batch), deliveries)
  {
    OneMoreBatch(candidates, done, Ids(batch), rounds, BATCH_SIZE);
    FewerLeft(candidates, done, batch);
  }

  /** Nothing claimed, nothing left: the loop has published every candidate. */
  lemma LoopEnds(before: Table, rows: Table, candidates: set<EventId>, rounds: nat, done: set<EventId>,
          firstToken: Token, token: Token, now: Time, deliveries: EventId -> Delivery)
    requires RoundStarts(before, rows, candidates, rounds, done, [], firstToken, token, now, deliveries)
    ensures done == candidates && AllAcknowledged(candidates, deliveries)
    ensures rows == Midway(before, candidates, {}, 0, now, false, deliveries)
  {
    EmptyBatch(candidates - done, BATCH_SIZE);
    assert done == candidates;
  }

  /** Every due row that was not locked is published, and every other is as it was. */
  ghost predicate AllArePublished(before: Table, rows: Table, locked: set<EventId>, now: Time) {
    && rows.Keys == before.Keys
    && forall id :: id in rows ==>
         if id !in locked && IsDue(before[id], now) then HasBeenPublished(before[id], rows[id], now)
         else rows[id] == before[id]
  }

  lemma PublishedCandidates(before: Table, locked: set<EventId>, now: Time, deliveries: EventId -> Delivery)
    ensures AllArePublished(before, Midway(before, Candidates(before, locked, now), {}, 0, now, false, deliveries),
                            locked, now)
  {
  }

  /**
   The dispatch loop, beside statements that keep `locked` rows locked. Unless a candidate
   fails, it publishes every one of them, however many batches that takes; if one does, it
   stops after the batch that failed. Rows that are not candidates stay as they are.
   */
  method DispatchLoop(repository: Repository, firstToken: Token, now: Time, locked: set<EventId>,
          deliveries: EventId -> Delivery)
    returns (hasFailedDispatch: bool)
    modifies repository
    ensures hasFailedDispatch <==> !AllAcknowledged(Candidates(old(repository.rows), locked, now), deliveries)
    ensures hasFailedDispatch ==>
              Stopped(old(repository.rows), repository.rows, Candidates(old(repository.rows), locked, now), firstToken,
                      now, deliveries)
    ensures !hasFailedDispatch ==>
              repository.rows
              == Midway(old(repository.rows), Candidates(old(repository.rows), locked, now), {}, 0, now, false,
                        deliveries)
    ensures !hasFailedDispatch ==> AllArePublished(old(repository.rows), repository.rows, locked, now)
  {
    ghost var before := repository.rows;
    ghost var candidates := Candidates(before, locked, now);
    ghost var rounds: nat, done: set<EventId> := 0, {};
    NothingDoneYet(before, now, deliveries);
    var token := firstToken;
    var batch := repository.ClaimNextBatch(token, now, locked);
    ClaimStartsRound(before, candidates, rounds, done, batch, firstToken, token, now, locked, deliveries);
    while batch != []
      invariant token == firstToken + rounds
      invariant RoundStarts(before, repository.rows, candidates, rounds, done, batch, firstToken, token, now,
                            deliveries)
      decreases |candidates - done|
    {
      RoundEnds(before, repository.rows, candidates, rounds, done, batch, firstToken, token, now, deliveries);
      RoundGoesOn(before, repository.rows, candidates, rounds, done, batch, firstToken, token, now, deliveries);
      hasFailedDispatch := DispatchBatch(repository, batch, token, now, deliveries);
      if hasFailedDispatch {
        return;
      }
      rounds, done := rounds + 1, done + Ids(batch);
      token := token + 1;
      batch := repository.ClaimNextBatch(token, now, locked);
      ClaimStartsRound(before, candidates, rounds, done, batch, firstToken, token, now, locked, deliveries);
    }
    LoopEnds(before, repository.rows, candidates, rounds, done, firstToken, token, now, deliveries);
    PublishedCandidates(before, locked, now, deliveries);
    hasFailedDispatch := false;
  }
}
