/** What the two outboxes share: claiming the oldest rows, a batch at a time. */
module OutboxClaims {
  type Token = nat
  type Time = nat

  /** Rows are named by their rank in `created_at` order. */
  type RowId = nat

  /**
   ORDER BY created_at LIMIT `limit`: of the candidates the oldest are taken, and none is
   passed over while there is room.
   */
  ghost predicate AreOldest(candidates: set<RowId>, ids: set<RowId>, limit: nat) {
    && ids <= candidates
    && |ids| <= limit
    && forall id :: id in candidates - ids ==> |ids| == limit && forall taken :: taken in ids ==> taken < id
  }

  function Ids(s: seq<RowId>): set<RowId> {
    set id | id in s
  }

  function Older(candidates: set<RowId>, id: RowId): set<RowId> {
    set older | older in candidates && older < id
  }

  ghost predicate Distinct(s: seq<RowId>) {
    forall j, k :: 0 <= j < k < |s| ==> s[j] != s[k]
  }

  method Oldest(s: set<RowId>) returns (oldest: RowId)
    requires s != {}
    ensures oldest in s && forall id :: id in s ==> oldest <= id
  {
    oldest :| oldest in s;
    var rest := s - {oldest};
    while rest != {}
      invariant oldest in s
      invariant forall id :: id in s && id !in rest ==> oldest <= id
    {
      var id :| id in rest;
      rest := rest - {id};
      oldest := if id < oldest then id else oldest;
    }
  }

  ghost predicate AllBelow(batch: seq<RowId>, left: set<RowId>) {
    forall k, id :: 0 <= k < |batch| && id in left ==> batch[k] < id
  }

  lemma TakeOne(batch: seq<RowId>, left: set<RowId>, oldest: RowId)
    requires Distinct(batch) && AllBelow(batch, left) && |Ids(batch)| == |batch|
    requires oldest in left && forall id :: id in left ==> oldest <= id
    ensures Distinct(batch + [oldest]) && AllBelow(batch + [oldest], left - {oldest})
    ensures Ids(batch + [oldest]) == Ids(batch) + {oldest} && |Ids(batch + [oldest])| == |batch + [oldest]|
  {
    assert oldest !in Ids(batch);
    assert Ids(batch + [oldest]) == Ids(batch) + {oldest};
  }

  lemma TakenAreOldest(candidates: set<RowId>, batch: seq<RowId>, limit: nat)
    requires Ids(batch) <= candidates && AllBelow(batch, candidates - Ids(batch)) && |Ids(batch)| == |batch| <= limit
    requires |batch| == limit || candidates == Ids(batch)
    ensures AreOldest(candidates, Ids(batch), limit)
  {
  }

  method TakeOldest(candidates: set<RowId>, limit: nat) returns (batch: seq<RowId>)
    ensures Distinct(batch) && AreOldest(candidates, Ids(batch), limit)
  {
    batch := [];
    var left := candidates;
    while |batch| < limit && left != {}
      invariant left == candidates - Ids(batch) && Ids(batch) <= candidates
      invariant |Ids(batch)| == |batch| <= limit
      invariant Distinct(batch) && AllBelow(batch, left)
    {
      var oldest := Oldest(left);
      TakeOne(batch, left, oldest);
      batch := batch + [oldest];
      left := left - {oldest};
    }
    TakenAreOldest(candidates, batch, limit);
  }

  /** A batch of distinct rows is as long as its set. */
  lemma {:induction false} SizeOfBatch(batch: seq<RowId>)
    requires Distinct(batch)
    ensures |Ids(batch)| == |batch|
  {
    if batch != [] {
      var n := |batch| - 1;
      SizeOfBatch(batch[..n]);
      assert Ids(batch) == Ids(batch[..n]) + {batch[n]};
    }
  }

  /** An empty batch means there was no candidate. */
  lemma EmptyBatch(candidates: set<RowId>, limit: nat)
    requires AreOldest(candidates, Ids([]), limit) && 0 < limit
    ensures candidates == {}
  {
    assert candidates == candidates - Ids([]);
  }

  /** Taking one more batch after `rounds` batches is taking `rounds + 1` batches. */
  lemma OneMoreBatch(candidates: set<RowId>, done: set<RowId>, batch: set<RowId>, rounds: nat, limit: nat)
    requires AreOldest(candidates, done, rounds * limit) && AreOldest(candidates - done, batch, limit)
    ensures AreOldest(candidates, done + batch, (rounds + 1) * limit)
  {
    assert (rounds + 1) * limit == rounds * limit + limit;
    assert |done + batch| == |done| + |batch|;
    forall id | id in candidates - (done + batch)
      ensures |done + batch| == (rounds + 1) * limit && forall taken :: taken in done + batch ==> taken < id
    {
      assert id in candidates - done && id in candidates - done - batch;
    }
  }

  lemma FewerLeft(candidates: set<RowId>, done: set<RowId>, batch: seq<RowId>)
    requires batch != [] && Ids(batch) <= candidates - done
    ensures |candidates - (done + Ids(batch))| < |candidates - done|
  {
    assert batch[0] in Ids(batch);
    SubsetSize(candidates - (done + Ids(batch)), candidates - done - {batch[0]});
  }

  /** With fewer older candidates than a batch holds, a candidate is taken. */
  lemma TakenIfFewAreOlder(candidates: set<RowId>, ids: set<RowId>, limit: nat, id: RowId)
    requires AreOldest(candidates, ids, limit) && id in candidates
    requires |Older(candidates, id)| < limit
    ensures id in ids
  {
    if id !in ids {
      var older := Older(candidates, id);
      assert id in candidates - ids;
      assert forall taken :: taken in ids ==> taken in older;
      SubsetSize(ids, older);
    }
  }

  lemma {:induction false} SubsetSize(a: set<RowId>, b: set<RowId>)
    requires a <= b
    ensures |a| <= |b|
  {
    if a != {} {
      var x :| x in a;
      SubsetSize(a - {x}, b - {x});
      assert |a - {x}| == |a| - 1 && |b - {x}| == |b| - 1;
    }
  }
}
