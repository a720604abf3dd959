/**
 The maker scan beside concurrent cancellations. The scan runs under the market
 lock, so nothing else matches or rejects, but cancellations take only the order's
 row lock and may commit or roll back between any two of its steps. Each query
 reads the latest committed rows.
 */
module MakerScan {
  import opened Outcomes
  import opened Model
  import opened OrderBook
  import opened MatchingService

  datatype Phase =
    | Fetching                    // about to query the next candidate
    | Waiting(candidate: OrderId) // SELECT ... FOR UPDATE issued
    | Locked(candidate: OrderId)  // row lock held, row not yet re-read
    | Done

  /** The committed orders, the rows cancellations hold, and the scan's variables. */
  datatype World = World(
    orders: seq<Order>, cancelling: set<OrderId>,
    phase: Phase, remaining: nat, cursor: Option<Key>, makers: seq<OrderId>, rows: seq<Order>, locked: set<OrderId>)

  datatype Step =
    | Fetch | Lock | Reread              // the scan
    | BeginCancel(id: OrderId)           // a cancellation gets its row lock; it may find it cannot cancel
    | CommitCancel(id: OrderId)
    | RollbackCancel(id: OrderId)
    | CreateQueued(order: Order)

  /** The locked row is a maker: its fill comes off what the taker still needs. */
  function Appended(w: World, c: OrderId): World
    requires c < |w.orders|
  {
    w.(phase := Fetching, makers := w.makers + [c], rows := w.rows + [w.orders[c]],
       remaining := w.remaining - FillAmount(w.orders[c], w.remaining))
  }

  /** One atomic step, if it can be taken. */
  function Next(w: World, takerId: OrderId, taker: Order, step: Step): Option<World> {
    match step
    case Fetch =>
      if w.phase != Fetching then None
      else if w.remaining == 0 then Some(w.(phase := Done))
      else
        var c := NextCandidate(w.orders, taker, w.cursor);
        if c.None? then Some(w.(phase := Done))
        else Some(w.(phase := Waiting(c.value), cursor := Some(KeyOf(w.orders, c.value))))
    case Lock =>
      if !w.phase.Waiting? || w.phase.candidate in w.cancelling then None
      else Some(w.(phase := Locked(w.phase.candidate), locked := w.locked + {w.phase.candidate}))
    case Reread =>
      if !w.phase.Locked? || |w.orders| <= w.phase.candidate then None
      else
        var maker := w.orders[w.phase.candidate];
        if !IsEligibleMaker(taker, maker) then Some(w.(phase := Fetching))
        else Some(Appended(w, w.phase.candidate))
    case BeginCancel(id) =>
      if id < |w.orders| && id != takerId && id !in w.locked && id !in w.cancelling
      then Some(w.(cancelling := w.cancelling + {id})) else None
    case CommitCancel(id) =>
      if id in w.cancelling && id < |w.orders| && IsActive(w.orders[id].status)
      then Some(w.(orders := w.orders[id := w.orders[id].(status := Cancelled)], cancelling := w.cancelling - {id}))
      else None
    case RollbackCancel(id) =>
      if id in w.cancelling then Some(w.(cancelling := w.cancelling - {id})) else None
    case CreateQueued(order) =>
      if && order.status == Queued && order.remaining == order.original && OrderInRange(order)
         && !IsTaken(w.orders, order.sequence)
      then Some(w.(orders := w.orders + [order])) else None
  }

  predicate IsScanStep(step: Step) {
    step.Fetch? || step.Lock? || step.Reread?
  }

  /** The scan's start: the market and the taker's row are locked, cancellations may be under way. */
  function Start(orders: seq<Order>, cancelling: set<OrderId>, taker: Order): World {
    World(orders, cancelling, Fetching, taker.remaining, None, [], [], {})
  }

  /** The world after a schedule of steps, if every step could be taken. */
  function After(w: World, takerId: OrderId, taker: Order, schedule: seq<Step>): Option<World> {
    if schedule == [] then Some(w)
    else
      var before := After(w, takerId, taker, schedule[..|schedule| - 1]);
      if before.None? then None else Next(before.value, takerId, taker, schedule[|schedule| - 1])
  }

  // ----- the invariant -----

  ghost predicate RowsFine(orders: seq<Order>) {
    && Sequenced(orders)
    && forall i :: 0 <= i < |orders| ==> OrderInRange(orders[i]) && StatusConsistent(orders[i])
  }

  function Pending(phase: Phase): Option<OrderId> {
    match phase
    case Waiting(c) => Some(c)
    case Locked(c) => Some(c)
    case _ => None
  }

  /** A position the cursor has reached. */
  predicate Reached(side: Side, cursor: Option<Key>, k: Key) {
    cursor.Some? && (k == cursor.value || Precedes(side, k, cursor.value))
  }

  /** The makers found are exactly the candidates up to the cursor, but for one being decided. */
  ghost predicate Covers(orders: seq<Order>, taker: Order, makers: seq<OrderId>, cursor: Option<Key>,
          pending: Option<OrderId>) {
    && (forall k :: 0 <= k < |makers| ==>
       CandidateAt(orders, taker, None, makers[k]) && Reached(taker.side, cursor, KeyOf(orders, makers[k])))
    && (forall j, k :: 0 <= j < k < |makers| ==>
       Precedes(taker.side, KeyOf(orders, makers[j]), KeyOf(orders, makers[k])))
    && (forall i: nat :: CandidateAt(orders, taker, None, i) ==>
          OrderBook.After(taker.side, cursor, KeyOf(orders, i)) || i in makers || pending == Some(i))
  }

  /** The pending candidate is where the cursor stands, past every maker found. */
  ghost predicate PendingAtCursor(w: World, taker: Order) {
    var pending := Pending(w.phase);
    pending.Some? ==>
      && pending.value < |w.orders|
      && w.cursor == Some(KeyOf(w.orders, pending.value))
      && w.remaining != 0
      && forall k :: 0 <= k < |w.makers| ==>
           && w.makers[k] < |w.orders|
           && Precedes(taker.side, KeyOf(w.orders, w.makers[k]), KeyOf(w.orders, pending.value))
  }

  ghost predicate LocksKept(w: World) {
    && w.locked !! w.cancelling
    && (forall k :: 0 <= k < |w.makers| ==> w.makers[k] in w.locked)
    && (w.phase.Locked? ==> w.phase.candidate in w.locked)
  }

  ghost predicate Counts(w: World, taker: Order) {
    && Rows(w.orders, w.makers)
    && w.remaining == RestAfter(w.orders, w.makers, taker.remaining)
    && (forall k :: 0 <= k < |w.makers| ==> RestAfter(w.orders, w.makers[..k], taker.remaining) != 0)
    && |w.rows| == |w.makers|
    && (forall k :: 0 <= k < |w.makers| ==> w.rows[k] == w.orders[w.makers[k]])
  }

  ghost predicate ScanInv(w: World, takerId: OrderId, taker: Order) {
    && takerId < |w.orders| && w.orders[takerId] == taker && taker.status == Queued
    && takerId !in w.cancelling
    && RowsFine(w.orders)
    && LocksKept(w)
    && Counts(w, taker)
    && Covers(w.orders, taker, w.makers, w.cursor, Pending(w.phase))
    && PendingAtCursor(w, taker)
    && (w.phase.Done? ==> w.remaining == 0 || NextCandidate(w.orders, taker, w.cursor) == None)
  }

  lemma ScanStarts(orders: seq<Order>, cancelling: set<OrderId>, takerId: OrderId)
    requires takerId < |orders| && orders[takerId].status == Queued && takerId !in cancelling
    requires RowsFine(orders)
    ensures ScanInv(Start(orders, cancelling, orders[takerId]), takerId, orders[takerId])
  {
  }

  // ----- the steps of the others -----

  /** Rows the scan depends on stay; other rows may only stop being candidates. */
  ghost predicate Shrinks(orders: seq<Order>, later: seq<Order>, taker: Order, kept: set<OrderId>) {
    && |orders| <= |later|
    && (forall i: nat :: i < |orders| ==> KeyOf(later, i) == KeyOf(orders, i))
    && (forall i: nat :: i < |orders| && i in kept ==> later[i] == orders[i])
    && (forall i: nat :: i < |later| && IsCandidate(taker, later[i]) ==> i < |orders| && IsCandidate(taker, orders[i]))
  }

  lemma {:induction false} RestAfterFrame(orders: seq<Order>, later: seq<Order>, makers: seq<OrderId>, amount: nat)
    requires Rows(orders, makers) && Rows(later, makers)
    requires forall k :: 0 <= k < |makers| ==> later[makers[k]] == orders[makers[k]]
    ensures RestAfter(later, makers, amount) == RestAfter(orders, makers, amount)
    decreases |makers|
  {
    if makers != [] {
      RestAfterFrame(orders, later, makers[..|makers| - 1], amount);
    }
  }

  lemma CountsFrame(w: World, later: seq<Order>, taker: Order)
    requires Counts(w, taker) && LocksKept(w) && Shrinks(w.orders, later, taker, w.locked)
    ensures Counts(w.(orders := later), taker)
  {
    RestAfterFrame(w.orders, later, w.makers, taker.remaining);
    forall k | 0 <= k < |w.makers|
      ensures RestAfter(later, w.makers[..k], taker.remaining) != 0
    {
      RestAfterFrame(w.orders, later, w.makers[..k], taker.remaining);
    }
  }

  lemma CoversFrame(w: World, later: seq<Order>, taker: Order)
    requires LocksKept(w) && Shrinks(w.orders, later, taker, w.locked)
    requires Covers(w.orders, taker, w.makers, w.cursor, Pending(w.phase))
    ensures Covers(later, taker, w.makers, w.cursor, Pending(w.phase))
  {
  }

  lemma NoCandidateFrame(orders: seq<Order>, later: seq<Order>, taker: Order, cursor: Option<Key>, kept: set<OrderId>)
    requires Shrinks(orders, later, taker, kept) && NextCandidate(orders, taker, cursor) == None && Sequenced(orders)
    ensures NextCandidate(later, taker, cursor) == None
  {
    var c := NextCandidate(later, taker, cursor);
    if c.Some? {
      assert CandidateAt(orders, taker, cursor, c.value);
      NextCandidateIsFirst(orders, taker, cursor, c.value);
    }
  }

  lemma OthersKeep(w: World, takerId: OrderId, taker: Order, later: seq<Order>, cancelling: set<OrderId>)
    requires ScanInv(w, takerId, taker)
    requires Shrinks(w.orders, later, taker, w.locked) && RowsFine(later) && later[takerId] == taker
    requires takerId !in cancelling && w.locked !! cancelling
    ensures ScanInv(w.(orders := later, cancelling := cancelling), takerId, taker)
  {
    CountsFrame(w, later, taker);
    CoversFrame(w, later, taker);
    if w.phase.Done? && w.remaining != 0 {
      NoCandidateFrame(w.orders, later, taker, w.cursor, w.locked);
    }
  }

  // ----- the steps of the scan -----

  lemma FetchCovers(orders: seq<Order>, taker: Order, makers: seq<OrderId>, cursor: Option<Key>, c: OrderId)
    requires Covers(orders, taker, makers, cursor, None) && NextCandidate(orders, taker, cursor) == Some(c)
    requires Sequenced(orders)
    ensures c < |orders| && Covers(orders, taker, makers, Some(KeyOf(orders, c)), Some(c))
    ensures forall k :: 0 <= k < |makers| ==>
              makers[k] < |orders| && Precedes(taker.side, KeyOf(orders, makers[k]), KeyOf(orders, c))
  {
    forall i: nat | CandidateAt(orders, taker, None, i)
      ensures OrderBook.After(taker.side, Some(KeyOf(orders, c)), KeyOf(orders, i)) || i in makers || i == c
    {
      if OrderBook.After(taker.side, cursor, KeyOf(orders, i)) {
        NextCandidateIsFirst(orders, taker, cursor, i);
      }
    }
    forall k | 0 <= k < |makers|
      ensures makers[k] < |orders| && Precedes(taker.side, KeyOf(orders, makers[k]), KeyOf(orders, c))
    {
      assert CandidateAt(orders, taker, None, makers[k]);
    }
  }

  lemma FetchKeeps(w: World, takerId: OrderId, taker: Order)
    requires ScanInv(w, takerId, taker) && w.phase == Fetching
    ensures ScanInv(Next(w, takerId, taker, Fetch).value, takerId, taker)
  {
    var best := NextCandidate(w.orders, taker, w.cursor);
    if w.remaining != 0 && best.Some? {
      FetchCovers(w.orders, taker, w.makers, w.cursor, best.value);
    }
  }

  lemma RereadKeeps(w: World, takerId: OrderId, taker: Order)
    requires ScanInv(w, takerId, taker) && w.phase.Locked?
    ensures Next(w, takerId, taker, Reread).Some?
    ensures ScanInv(Next(w, takerId, taker, Reread).value, takerId, taker)
  {
    var c := w.phase.candidate;
    var maker := w.orders[c];
    assert OrderInRange(maker) && StatusConsistent(maker);
    CandidateIsEligible(taker, maker);
    if IsEligibleMaker(taker, maker) {
      AppendMaker(w, takerId, taker);
    } else {
      SkipCandidate(w, takerId, taker);
    }
  }

  /** A row that is no candidate any more is passed over. */
  lemma SkipCandidate(w: World, takerId: OrderId, taker: Order)
    requires ScanInv(w, takerId, taker) && w.phase.Locked? && !IsCandidate(taker, w.orders[w.phase.candidate])
    ensures ScanInv(w.(phase := Fetching), takerId, taker)
  {
    assert !CandidateAt(w.orders, taker, None, w.phase.candidate);
  }

  lemma AppendMaker(w: World, takerId: OrderId, taker: Order)
    requires ScanInv(w, takerId, taker) && w.phase.Locked? && IsEligibleMaker(taker, w.orders[w.phase.candidate])
    ensures ScanInv(Appended(w, w.phase.candidate), takerId, taker)
  {
    var c := w.phase.candidate;
    AppendCounts(w, taker, c);
    AppendCovers(w.orders, taker, w.makers, w.cursor, c);
    AppendKeepsLocks(w, Appended(w, c));
  }

  lemma AppendKeepsLocks(w: World, w': World)
    requires LocksKept(w) && w.phase.Locked?
    requires w'.locked == w.locked && w'.cancelling == w.cancelling && w'.phase == Fetching
             && w'.makers == w.makers + [w.phase.candidate]
    ensures LocksKept(w')
  {
  }

  lemma AppendCounts(w: World, taker: Order, c: OrderId)
    requires Counts(w, taker) && c < |w.orders| && w.remaining != 0
    ensures Counts(Appended(w, c), taker)
  {
    var later := w.makers + [c];
    assert later[..|w.makers|] == w.makers;
    forall k | 0 <= k < |later|
      ensures RestAfter(w.orders, later[..k], taker.remaining) != 0
    {
      assert later[..k] == w.makers[..k];
      assert w.makers[..|w.makers|] == w.makers;
    }
  }

  lemma AppendCovers(orders: seq<Order>, taker: Order, makers: seq<OrderId>, cursor: Option<Key>, c: OrderId)
    requires c < |orders| && cursor == Some(KeyOf(orders, c)) && IsCandidate(taker, orders[c])
    requires Covers(orders, taker, makers, cursor, Some(c))
    requires forall k :: 0 <= k < |makers| ==>
               makers[k] < |orders| && Precedes(taker.side, KeyOf(orders, makers[k]), KeyOf(orders, c))
    ensures Covers(orders, taker, makers + [c], cursor, None)
  {
  }

  lemma NextKeeps(w: World, takerId: OrderId, taker: Order, step: Step)
    requires ScanInv(w, takerId, taker) && Next(w, takerId, taker, step).Some?
    ensures ScanInv(Next(w, takerId, taker, step).value, takerId, taker)
  {
    match step
    case Fetch => FetchKeeps(w, takerId, taker);
    case Lock => LockKeeps(w, takerId, taker);
    case Reread => RereadKeeps(w, takerId, taker);
    case BeginCancel(id) => OthersKeep(w, takerId, taker, w.orders, w.cancelling + {id});
    case CommitCancel(id) =>
      var later := w.orders[id := w.orders[id].(status := Cancelled)];
      CancelShrinks(w, takerId, taker, id);
      OthersKeep(w, takerId, taker, later, w.cancelling - {id});
    case RollbackCancel(id) => OthersKeep(w, takerId, taker, w.orders, w.cancelling - {id});
    case CreateQueued(order) =>
      CreateShrinks(w, takerId, taker, order);
      OthersKeep(w, takerId, taker, w.orders + [order], w.cancelling);
  }

  lemma CancelShrinks(w: World, takerId: OrderId, taker: Order, id: OrderId)
    requires ScanInv(w, takerId, taker) && id in w.cancelling && id < |w.orders| && IsActive(w.orders[id].status)
    ensures var later := w.orders[id := w.orders[id].(status := Cancelled)];
            && Shrinks(w.orders, later, taker, w.locked) && later[takerId] == taker
            && RowsFine(later)
  {
    assert OrderInRange(w.orders[id]) && StatusConsistent(w.orders[id]);
  }

  lemma CreateShrinks(w: World, takerId: OrderId, taker: Order, order: Order)
    requires ScanInv(w, takerId, taker) && order.status == Queued && order.remaining == order.original
             && OrderInRange(order) && !IsTaken(w.orders, order.sequence)
    ensures var later := w.orders + [order];
            && Shrinks(w.orders, later, taker, w.locked) && later[takerId] == taker
            && RowsFine(later)
  {
  }

  lemma LockKeeps(w: World, takerId: OrderId, taker: Order)
    requires ScanInv(w, takerId, taker) && w.phase.Waiting? && w.phase.candidate !in w.cancelling
    ensures ScanInv(Next(w, takerId, taker, Lock).value, takerId, taker)
  {
  }

  // ----- linearization -----

  lemma {:induction false} ScheduleKeeps(w: World, takerId: OrderId, taker: Order, schedule: seq<Step>)
    requires ScanInv(w, takerId, taker) && After(w, takerId, taker, schedule).Some?
    ensures ScanInv(After(w, takerId, taker, schedule).value, takerId, taker)
  {
    if schedule != [] {
      var n := |schedule| - 1;
      ScheduleKeeps(w, takerId, taker, schedule[..n]);
      NextKeeps(After(w, takerId, taker, schedule[..n]).value, takerId, taker, schedule[n]);
    }
  }

  /** The makers found, followed by whatever is still ahead of the cursor, are the whole book. */
  lemma FoundThenRest(orders: seq<Order>, taker: Order, makers: seq<OrderId>, cursor: Option<Key>)
    requires Covers(orders, taker, makers, cursor, None) && Sequenced(orders)
    ensures PriorityBook(orders, taker, None) == makers + PriorityBook(orders, taker, cursor)
  {
    PriorityBookRanks(orders, taker, None);
    PriorityBookRanks(orders, taker, cursor);
    FoundThenRestRanks(orders, taker, makers, cursor, PriorityBook(orders, taker, cursor));
    RankingIsUnique(orders, taker, None, PriorityBook(orders, taker, None),
      makers + PriorityBook(orders, taker, cursor));
  }

  lemma FoundThenRestRanks(orders: seq<Order>, taker: Order, makers: seq<OrderId>, cursor: Option<Key>,
          rest: seq<OrderId>)
    requires Covers(orders, taker, makers, cursor, None) && IsRanking(orders, taker, cursor, rest)
    ensures IsRanking(orders, taker, None, makers + rest)
  {
  }

  /**
   Whatever cancellations commit or roll back between the steps of the scan, once it is
   done - and for as long as its locks are held - the makers it chose are the ones sorting
   the committed book and taking from the front gives, and the rows it read are current.
   */
  lemma ScanIsLinearizable(orders: seq<Order>, cancelling: set<OrderId>, takerId: OrderId, schedule: seq<Step>)
    requires takerId < |orders| && orders[takerId].status == Queued && takerId !in cancelling
    requires RowsFine(orders)
    requires var w := After(Start(orders, cancelling, orders[takerId]), takerId, orders[takerId], schedule);
             w.Some? && w.value.phase == Done
    ensures var taker := orders[takerId];
            var w := After(Start(orders, cancelling, taker), takerId, taker, schedule).value;
            && w.makers == SelectMakers(w.orders, taker)
            && |w.rows| == |w.makers|
            && forall k :: 0 <= k < |w.makers| ==> w.makers[k] < |w.orders| && w.rows[k] == w.orders[w.makers[k]]
  {
    var taker := orders[takerId];
    ScanStarts(orders, cancelling, takerId);
    ScheduleKeeps(Start(orders, cancelling, taker), takerId, taker, schedule);
    DoneIsSelection(After(Start(orders, cancelling, taker), takerId, taker, schedule).value, takerId, taker);
  }

  lemma DoneIsSelection(w: World, takerId: OrderId, taker: Order)
    requires ScanInv(w, takerId, taker) && w.phase == Done
    ensures w.makers == SelectMakers(w.orders, taker)
  {
    FoundThenRest(w.orders, taker, w.makers, w.cursor);
    ScanEnds(w.orders, taker, w.makers, w.cursor, w.remaining);
  }

  // ----- termination -----

  lemma {:induction false} CountShrinks(orders: seq<Order>, later: seq<Order>, taker: Order, cursor: Option<Key>,
          n: nat)
    requires n <= |orders| <= |later|
    requires forall i: nat :: i < |orders| ==> KeyOf(later, i) == KeyOf(orders, i)
    requires forall i: nat :: i < |orders| && IsCandidate(taker, later[i]) ==> IsCandidate(taker, orders[i])
    ensures CountAfter(later, taker, cursor, n) <= CountAfter(orders, taker, cursor, n)
  {
    if n > 0 {
      CountShrinks(orders, later, taker, cursor, n - 1);
    }
  }

  lemma {:induction false} CountOfNewRows(orders: seq<Order>, taker: Order, cursor: Option<Key>, n: nat, m: nat)
    requires n <= m <= |orders|
    requires forall i: nat :: n <= i < m ==> !IsCandidate(taker, orders[i])
    ensures CountAfter(orders, taker, cursor, m) == CountAfter(orders, taker, cursor, n)
    decreases m
  {
    if n < m {
      CountOfNewRows(orders, taker, cursor, n, m - 1);
    }
  }

  /** How many more scan steps there can be. */
  function Budget(w: World, taker: Order): nat {
    4 * CountAfter(w.orders, taker, w.cursor, |w.orders|)
    + (match w.phase case Fetching => 1 case Waiting(_) => 3 case Locked(_) => 2 case Done => 0)
  }

  lemma OthersSpendNothing(w: World, later: seq<Order>, taker: Order, kept: set<OrderId>)
    requires Shrinks(w.orders, later, taker, kept)
    ensures Budget(w.(orders := later), taker) <= Budget(w, taker)
  {
    CountShrinks(w.orders, later, taker, w.cursor, |w.orders|);
    CountOfNewRows(later, taker, w.cursor, |w.orders|, |later|);
  }

  lemma StepSpendsBudget(w: World, takerId: OrderId, taker: Order, step: Step)
    requires ScanInv(w, takerId, taker) && Next(w, takerId, taker, step).Some?
    ensures Budget(Next(w, takerId, taker, step).value, taker) + (if IsScanStep(step) then 1 else 0) <= Budget(w, taker)
  {
    match step
    case Fetch =>
      var c := NextCandidate(w.orders, taker, w.cursor);
      if w.remaining != 0 && c.Some? {
        CursorAdvances(w.orders, taker, w.cursor, c.value, |w.orders|);
      }
    case CommitCancel(id) =>
      CancelShrinks(w, takerId, taker, id);
      OthersSpendNothing(w, w.orders[id := w.orders[id].(status := Cancelled)], taker, w.locked);
    case CreateQueued(order) =>
      CreateShrinks(w, takerId, taker, order);
      OthersSpendNothing(w, w.orders + [order], taker, w.locked);
    case _ =>
  }

  function ScanSteps(schedule: seq<Step>): nat {
    if schedule == [] then 0
    else ScanSteps(schedule[..|schedule| - 1]) + if IsScanStep(schedule[|schedule| - 1]) then 1 else 0
  }

  /** The scan terminates: four steps for each candidate there was, and one more, is all it can ever take. */
  lemma {:induction false} ScanTerminates(w: World, takerId: OrderId, taker: Order, schedule: seq<Step>)
    requires ScanInv(w, takerId, taker) && After(w, takerId, taker, schedule).Some?
    ensures ScanSteps(schedule) + Budget(After(w, takerId, taker, schedule).value, taker) <= Budget(w, taker)
  {
    if schedule != [] {
      var n := |schedule| - 1;
      ScanTerminates(w, takerId, taker, schedule[..n]);
      ScheduleKeeps(w, takerId, taker, schedule[..n]);
      StepSpendsBudget(After(w, takerId, taker, schedule[..n]).value, takerId, taker, schedule[n]);
    }
  }

  /** A scan that is not done can step, except while a cancellation holds the row it waits for. */
  lemma ScanIsNeverStuck(w: World, takerId: OrderId, taker: Order)
    requires ScanInv(w, takerId, taker) && w.phase != Done
    ensures || (exists step :: IsScanStep(step) && Next(w, takerId, taker, step).Some?)
            || (w.phase.Waiting? && Next(w, takerId, taker, RollbackCancel(w.phase.candidate)).Some?)
  {
    match w.phase
    case Fetching => assert IsScanStep(Fetch) && Next(w, takerId, taker, Fetch).Some?;
    case Waiting(c) =>
      if c !in w.cancelling {
        assert IsScanStep(Lock) && Next(w, takerId, taker, Lock).Some?;
      }
    case Locked(c) => assert IsScanStep(Reread) && Next(w, takerId, taker, Reread).Some?;
  }

  // ----- what may happen beside the scan -----

  /**
   Between any two steps of the scan, any active order it has not locked, the taker's
   excepted, may be cancelled, and any new queued order may be created.
   */
  lemma OthersMayCommit(w: World, takerId: OrderId, taker: Order, id: OrderId, order: Order)
    ensures && id < |w.orders| && id != takerId && id !in w.locked && id !in w.cancelling
            && (w.orders[id].status == Queued || w.orders[id].status == Open || w.orders[id].status == PartiallyFilled)
            ==>
              && After(w, takerId, taker, [BeginCancel(id), CommitCancel(id)])
                 == Some(w.(orders := w.orders[id := w.orders[id].(status := Cancelled)]))
              && After(w, takerId, taker, [BeginCancel(id), RollbackCancel(id)]) == Some(w)
    ensures && order.status == Queued && order.remaining == order.original && OrderInRange(order)
            && (forall i :: 0 <= i < |w.orders| ==> w.orders[i].sequence != order.sequence)
            ==> After(w, takerId, taker, [CreateQueued(order)]) == Some(w.(orders := w.orders + [order]))
  {
    var held := w.cancelling + {id};
    assert id !in w.cancelling ==> held - {id} == w.cancelling;
    AfterTwo(w, takerId, taker, BeginCancel(id), CommitCancel(id));
    AfterTwo(w, takerId, taker, BeginCancel(id), RollbackCancel(id));
    assert [CreateQueued(order)][..0] == [];
  }

  lemma AfterTwo(w: World, takerId: OrderId, taker: Order, first: Step, second: Step)
    ensures After(w, takerId, taker, [first, second])
         == var before := Next(w, takerId, taker, first);
            if before.None? then None else Next(before.value, takerId, taker, second)
  {
    assert [first][..0] == [];
    assert After(w, takerId, taker, [first]) == Next(w, takerId, taker, first);
    assert [first, second][..1] == [first];
  }
}
