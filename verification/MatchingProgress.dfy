/** A matching transaction that has begun gets to its commit, whatever commits beside it. */
module MatchingProgress {
  import opened Outcomes
  import opened Decimals
  import opened Model
  import opened Engine
  import opened Settlement
  import opened Serializability
  import OrderBook
  import Ledger
  import Reachability
  import MakerScan

  ghost predicate SupplyIsBounded(w: World) {
    forall asset :: Ledger.TotalOpening(OpeningsOf(w.log), asset) <= DECIMAL_MAX
  }

  // ----- no guard fails -----

  /** Whatever has committed since the scan, both guarded wallet updates of the next turn find their rows. */
  lemma NextTurnFits(schedule: seq<Step>)
    requires After(schedule).Some? && After(schedule).value.matching.Some? && SupplyIsBounded(After(schedule).value)
    requires NextMaker(After(schedule).value.matching.value).Some?
    ensures var w := After(schedule).value;
            var m := w.matching.value;
            var (id, maker) := NextMaker(m).value;
            && id < |w.db.orders| && maker == w.db.orders[id]
            && SettleOne(View(w.db, m), m.id, m.taker, id, maker).Ok?
  {
    SchedulesKeep(schedule);
    var w := After(schedule).value;
    var m := w.matching.value;
    NextMakerIs(w.db, m);
    Reachability.NothingButFundsFails(w.log, Process(m.id));
    NextTurnFitsAt(w.db, m);
  }

  lemma NextTurnFitsAt(db: State, m: Matching)
    requires MatchingInv(db, m) && NextMaker(m).Some? && ProcessOrder(db, m.id).Ok?
    ensures var (id, maker) := NextMaker(m).value;
            && id < |db.orders| && maker == db.orders[id]
            && SettleOne(View(db, m), m.id, m.taker, id, maker).Ok?
  {
    NextMakerIs(db, m);
    var (id, maker) := NextMaker(m).value;
    if SettleOne(View(db, m), m.id, m.taker, id, maker).Err? {
      FailedTurnFailsAlone(db, m);
    }
  }

  /** A maker with nothing to fill is skipped; any other needs both wallets locked, and nothing more. */
  lemma NextTurnNeedsOnlyLocks(schedule: seq<Step>)
    requires After(schedule).Some? && After(schedule).value.matching.Some? && SupplyIsBounded(After(schedule).value)
    requires NextMaker(After(schedule).value.matching.value).Some?
    ensures var w := After(schedule).value;
            Next(w, Settle).Some? <==> MissingLocks(w.matching.value) == 0
  {
    NextTurnFits(schedule);
  }

  // ----- the work left -----

  predicate IsMatchingStep(step: Step) {
    step.Scan? || step.LockWallet? || step.Settle? || step.Finished?
  }

  /** How many of the two wallets the next fill moves are not locked yet. */
  function MissingLocks(m: Matching): nat {
    var next := NextMaker(m);
    if next.None? || OrderBook.FillAmount(next.value.1, m.rest) == 0 then 0
    else (if m.taker.user in m.held then 0 else 1) + (if next.value.1.user in m.held then 0 else 1)
  }

  function UnsettledMakers(m: Matching): nat {
    if m.settled <= |m.scan.makers| then |m.scan.makers| - m.settled else 0
  }

  /** A maker takes two locks and a turn, and a step of the scan may find one. */
  function WorkOf(m: Matching, scan: MakerScan.World): nat {
    1 + 4 * MakerScan.Budget(scan, m.taker) + 3 * UnsettledMakers(m) + MissingLocks(m)
  }

  /** No more steps than this are left to the matching transaction. */
  function Work(w: World): nat {
    match w.matching
    case None => 0
    case Some(m) => WorkOf(m, ScanWorld(w.db, m))
  }

  /** A step of the scan finds at most one maker. */
  lemma ScanFindsOne(scan: MakerScan.World, takerId: OrderId, taker: Order, step: MakerScan.Step)
    requires MakerScan.ScanInv(scan, takerId, taker) && MakerScan.IsScanStep(step)
    requires MakerScan.Next(scan, takerId, taker, step).Some?
    ensures var scan' := MakerScan.Next(scan, takerId, taker, step).value;
            && scan.phase != MakerScan.Done && scan'.orders == scan.orders && |scan'.makers| <= |scan.makers| + 1
            && (scan'.phase == MakerScan.Done ==> scan'.makers == scan.makers)
            && MakerScan.Budget(scan', taker) < MakerScan.Budget(scan, taker)
  {
    MakerScan.StepSpendsBudget(scan, takerId, taker, step);
  }

  lemma ScanDoesWork(m: Matching, scan: MakerScan.World, scan': MakerScan.World)
    requires m.settled == 0 && m.scan.phase != MakerScan.Done && |scan'.makers| <= |m.scan.makers| + 1
    requires scan'.phase == MakerScan.Done ==> scan'.makers == m.scan.makers
    requires MakerScan.Budget(scan', m.taker) < MakerScan.Budget(scan, m.taker)
    ensures WorkOf(m.(scan := scan'), scan') < WorkOf(m, scan)
  {
  }

  lemma ScanStepDoesWork(w: World, step: MakerScan.Step)
    requires WorldInv(w) && Next(w, Scan(step)).Some?
    ensures Work(Next(w, Scan(step)).value) < Work(w)
  {
    var m := w.matching.value;
    ScanFindsOne(ScanWorld(w.db, m), m.id, m.taker, step);
    var scan := MakerScan.Next(ScanWorld(w.db, m), m.id, m.taker, step).value;
    ScanDoesWork(m, ScanWorld(w.db, m), scan);
    assert ScanWorld(w.db, m.(scan := scan)) == scan;
  }

  lemma LockDoesWork(m: Matching, user: UserId, scan: MakerScan.World)
    requires NextMaker(m).Some? && 0 < OrderBook.FillAmount(NextMaker(m).value.1, m.rest)
    requires user in {m.taker.user, NextMaker(m).value.1.user} && user !in m.held
    ensures WorkOf(m.(held := m.held + {user}), scan) < WorkOf(m, scan)
  {
  }

  lemma TurnDoesWork(m: Matching, m': Matching, scan: MakerScan.World)
    requires m'.scan == m.scan && m'.taker == m.taker && m'.settled == m.settled + 1 <= |m.scan.makers|
    ensures WorkOf(m', scan) < WorkOf(m, scan)
  {
  }

  lemma SettleDoesWork(w: World)
    requires w.matching.Some? && w.matching.value.settled <= |w.matching.value.scan.makers|
    requires WritesHeld(w.db, w.matching.value) && Next(w, Settle).Some?
    ensures Work(Next(w, Settle).value) < Work(w)
  {
    var m := w.matching.value;
    TurnWritesHeld(w.db, m);
    TurnDoesWork(m, SettleTurn(w.db, m).value, ScanWorld(w.db, m));
  }

  lemma StepDoesWork(w: World, step: Step)
    requires WorldInv(w) && IsMatchingStep(step) && Next(w, step).Some?
    ensures Work(Next(w, step).value) < Work(w)
  {
    match step
    case Scan(s) => ScanStepDoesWork(w, s);
    case LockWallet(user) => LockDoesWork(w.matching.value, user, ScanWorld(w.db, w.matching.value));
    case Settle => SettleDoesWork(w);
    case Finished =>
  }

  /** What commits beside the matching transaction gives it no more to do. */
  lemma CommitAddsNoWork(w: World, c: Command)
    requires WorldInv(w) && Next(w, Commit(c)).Some?
    ensures Work(Next(w, Commit(c)).value) <= Work(w)
  {
    if w.matching.Some? {
      var m := w.matching.value;
      UnblockedLeavesAlone(w.db, m, c);
      MakerScan.OthersSpendNothing(ScanWorld(w.db, m), Apply(w.db, c).orders, m.taker, m.scan.locked);
    }
  }

  function MatchingSteps(schedule: seq<Step>): nat {
    if schedule == [] then 0
    else MatchingSteps(schedule[..|schedule| - 1]) + if IsMatchingStep(schedule[|schedule| - 1]) then 1 else 0
  }

  lemma LastStep(schedule: seq<Step>, more: seq<Step>)
    requires more != []
    ensures var n := |more| - 1;
            && (schedule + more)[..|schedule + more| - 1] == schedule + more[..n]
            && (schedule + more)[|schedule + more| - 1] == more[n]
  {
  }

  /** A matching transaction is done after a bounded number of its own steps, whatever else commits meanwhile. */
  lemma {:induction false} WorkBoundsSteps(schedule: seq<Step>, more: seq<Step>)
    requires After(schedule + more).Some? && forall k :: 0 <= k < |more| ==> !more[k].Begin?
    ensures After(schedule).Some?
    ensures MatchingSteps(more) + Work(After(schedule + more).value) <= Work(After(schedule).value)
    decreases |more|
  {
    if more == [] {
      assert schedule + more == schedule;
    } else {
      var n := |more| - 1;
      LastStep(schedule, more);
      WorkBoundsSteps(schedule, more[..n]);
      SchedulesKeep(schedule + more[..n]);
      StepAddsNoWork(After(schedule + more[..n]).value, more[n]);
    }
  }

  lemma StepAddsNoWork(w: World, step: Step)
    requires WorldInv(w) && Next(w, step).Some? && !step.Begin?
    ensures Work(Next(w, step).value) + (if IsMatchingStep(step) then 1 else 0) <= Work(w)
  {
    match step
    case Commit(c) => CommitAddsNoWork(w, c);
    case Abort =>
    case _ => StepDoesWork(w, step);
  }

  // ----- the way to the commit -----

  /**
   With bounded supply a matching transaction can always take one of its steps, and each
   brings it nearer to its commit: no guard of a concurrent run fails, and no lock it needs
   is kept by a transaction that has ended.
   */
  lemma MatchingGoesOn(schedule: seq<Step>) returns (step: Step)
    requires After(schedule).Some? && After(schedule).value.matching.Some? && SupplyIsBounded(After(schedule).value)
    ensures var w := After(schedule).value;
            IsMatchingStep(step) && Next(w, step).Some? && Work(Next(w, step).value) < Work(w)
  {
    SchedulesKeep(schedule);
    var w := After(schedule).value;
    var m := w.matching.value;
    if m.scan.phase != MakerScan.Done {
      step := ScanGoesOn(w);
    } else if m.settled == |m.scan.makers| {
      step := Finished;
    } else {
      NextTurnFits(schedule);
      step := TurnOrLock(w);
    }
    StepDoesWork(w, step);
  }

  lemma ScanGoesOn(w: World) returns (step: Step)
    requires WorldInv(w) && w.matching.Some? && w.matching.value.scan.phase != MakerScan.Done
    ensures step.Scan? && Next(w, step).Some?
  {
    var m := w.matching.value;
    MakerScan.ScanIsNeverStuck(ScanWorld(w.db, m), m.id, m.taker);
    var s :| MakerScan.IsScanStep(s) && MakerScan.Next(ScanWorld(w.db, m), m.id, m.taker, s).Some?;
    step := Scan(s);
  }

  /** The next turn, or a wallet lock it still needs. */
  lemma TurnOrLock(w: World) returns (step: Step)
    requires w.matching.Some? && NextMaker(w.matching.value).Some?
    requires var (id, maker) := NextMaker(w.matching.value).value;
             && id < |w.db.orders|
             && SettleOne(View(w.db, w.matching.value), w.matching.value.id, w.matching.value.taker, id, maker).Ok?
    ensures IsMatchingStep(step) && Next(w, step).Some?
  {
    var m := w.matching.value;
    var (id, maker) := NextMaker(m).value;
    step := Settle;
    if 0 < OrderBook.FillAmount(maker, m.rest) {
      SettleOneWrites(View(w.db, m), m.id, m.taker, id, maker);
      if m.taker.user !in m.held {
        step := LockWallet(m.taker.user);
      } else if maker.user !in m.held {
        step := LockWallet(maker.user);
      }
    }
  }

  /** `w'` is `w` with its matching transaction committed, as if it had run alone on the state of `w`. */
  ghost predicate HasCommitted(w: World, w': World) {
    && w.matching.Some? && w'.matching.None?
    && w'.log == w.log + [Process(w.matching.value.id)]
    && ProcessOrder(w.db, w.matching.value.id) == Ok(w'.db)
  }

  /** Until it finishes the matching transaction changes nothing anybody else sees. */
  lemma StepStaysInside(w: World, step: Step)
    requires IsMatchingStep(step) && !step.Finished? && Next(w, step).Some?
    ensures var w' := Next(w, step).value;
            && w.matching.Some? && w'.matching.Some? && w'.matching.value.id == w.matching.value.id
            && w'.db == w.db && w'.log == w.log
  {
  }

  lemma StepReachesCommit(w: World, step: Step, w': World)
    requires IsMatchingStep(step) && !step.Finished? && Next(w, step).Some?
    requires HasCommitted(Next(w, step).value, w')
    ensures HasCommitted(w, w')
  {
    StepStaysInside(w, step);
  }

  lemma FinishedCommits(schedule: seq<Step>)
    requires After(schedule).Some? && Next(After(schedule).value, Finished).Some?
    ensures HasCommitted(After(schedule).value, Next(After(schedule).value, Finished).value)
  {
    CommitsWhatItWouldDoAlone(schedule);
  }

  /** The schedule goes on with one more step. */
  lemma OneMoreStep(schedule: seq<Step>, step: Step)
    requires After(schedule).Some?
    ensures After(schedule + [step]) == Next(After(schedule).value, step)
  {
    assert (schedule + [step])[..|schedule|] == schedule;
  }

  /**
   From wherever the others have left it, a matching transaction can run to its commit, and
   then commits what processing its order at once on the committed state gives.
   */
  lemma MatchingCanCommit(schedule: seq<Step>) returns (more: seq<Step>)
    requires After(schedule).Some? && After(schedule).value.matching.Some? && SupplyIsBounded(After(schedule).value)
    ensures |more| <= Work(After(schedule).value) && forall k :: 0 <= k < |more| ==> IsMatchingStep(more[k])
    ensures After(schedule + more).Some? && HasCommitted(After(schedule).value, After(schedule + more).value)
  {
    more := CommitReachedFrom(schedule, After(schedule).value);
  }

  lemma StepInFront(schedule: seq<Step>, step: Step, rest: seq<Step>)
    ensures schedule + ([step] + rest) == schedule + [step] + rest
  {
  }

  lemma CommitReachedFrom(schedule: seq<Step>, w: World) returns (more: seq<Step>)
    requires After(schedule) == Some(w) && w.matching.Some? && SupplyIsBounded(w)
    ensures |more| <= Work(w) && forall k :: 0 <= k < |more| ==> IsMatchingStep(more[k])
    ensures After(schedule + more).Some? && HasCommitted(w, After(schedule + more).value)
    decreases Work(w)
  {
    var step := MatchingGoesOn(schedule);
    OneMoreStep(schedule, step);
    if step.Finished? {
      more := [step];
      FinishedCommits(schedule);
    } else {
      StepStaysInside(w, step);
      var rest := CommitReachedFrom(schedule + [step], Next(w, step).value);
      more := [step] + rest;
      StepInFront(schedule, step, rest);
      StepReachesCommit(w, step, After(schedule + more).value);
    }
  }

  /** `w'` is `w` with order `id` processed as it would be alone. */
  ghost predicate HasProcessed(w: World, w': World, id: OrderId) {
    w'.matching.None? && w'.log == w.log + [Process(id)] && ProcessOrder(w.db, id) == Ok(w'.db)
  }

  /** And so can the processing of any queued order, from its beginning, when no other is under way. */
  lemma QueuedOrderIsProcessed(schedule: seq<Step>, id: OrderId) returns (more: seq<Step>)
    requires After(schedule).Some? && After(schedule).value.matching.None? && SupplyIsBounded(After(schedule).value)
    requires id < |After(schedule).value.db.orders| && After(schedule).value.db.orders[id].status == Queued
    ensures After(schedule + more).Some?
    ensures HasProcessed(After(schedule).value, After(schedule + more).value, id)
  {
    OneMoreStep(schedule, Begin(id));
    var rest := MatchingCanCommit(schedule + [Begin(id)]);
    StepInFront(schedule, Begin(id), rest);
    more := [Begin(id)] + rest;
  }
}
