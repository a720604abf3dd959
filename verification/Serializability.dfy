/**
 Matching beside everything else. One transaction at a time holds the market lock; its
 writes stay its own until it commits. Account openings, order creations and cancellations
 commit between any two of its steps, unless they need a row it has locked. Every statement
 reads the latest committed rows, under the transaction's own writes.
 */
module Serializability {
  import opened Outcomes
  import opened Decimals
  import opened Model
  import opened OrderBook
  import opened Engine
  import opened Settlement
  import Market
  import MonetaryOracle
  import Reachability
  import MatchingService
  import MakerScan

  /** A matching transaction under way: its scan, the wallet rows it holds, its loop variables and its writes. */
  datatype Matching = Matching(
    id: OrderId, taker: Order, scan: MakerScan.World, settled: nat, held: set<UserId>,
    rest: nat, matched: nat, tradeIds: seq<TradeId>, affected: seq<UserId>,
    wallets: map<UserId, Wallet>, orders: map<OrderId, Order>, trades: seq<Trade>)

  /** `log` records the committed transactions in commit order; nothing reads it. */
  datatype World = World(db: State, matching: Option<Matching>, log: seq<Command>)

  datatype Step =
    | Commit(c: Command)          // any transaction but matching, at its commit
    | Begin(id: OrderId)          // the market and the taker's row are locked
    | Scan(step: MakerScan.Step)
    | LockWallet(user: UserId)
    | Settle
    | Finished
    | Abort                       // an exception, a lost connection or a crash

  /** A table as the transaction reads it. */
  function Overlay<T>(rows: seq<T>, writes: map<nat, T>): (r: seq<T>)
    ensures |r| == |rows|
  {
    seq(|rows|, i requires 0 <= i < |rows| => if i in writes then writes[i] else rows[i])
  }

  function View(db: State, m: Matching): Progress {
    Progress(Overlay(db.wallets, m.wallets), Overlay(db.orders, m.orders), db.trades + m.trades,
             m.rest, m.matched, m.tradeIds, m.affected)
  }

  function ScanWorld(db: State, m: Matching): MakerScan.World {
    m.scan.(orders := db.orders)
  }

  /** Does the transaction behind `c` wait for a lock the matching transaction has? */
  predicate Blocked(db: State, m: Matching, c: Command) {
    match c
    case OpenAccount(_) => false
    case Create(user, _, _, _, _) => user in m.held
    case Process(_) => true
    case Reject(_) => true
    case Cancel(user, id) =>
      && id < |db.orders| && db.orders[id].user == user
      && (id == m.id || id in m.scan.locked || (IsActive(db.orders[id].status) && user in m.held))
  }

  function Started(db: State, id: OrderId): Matching
    requires id < |db.orders|
  {
    var taker := db.orders[id];
    Matching(id, taker, MakerScan.Start(db.orders, {}, taker), 0, {}, taker.remaining, 0, [], [taker.user], map[],
             map[], [])
  }

  /** The maker whose turn it is. */
  function NextMaker(m: Matching): Option<(OrderId, Order)> {
    if m.scan.phase == MakerScan.Done && m.settled < |m.scan.makers| && m.settled < |m.scan.rows|
    then Some((m.scan.makers[m.settled], m.scan.rows[m.settled])) else None
  }

  /** One turn of the settlement loop, once both wallets are locked; None when a guard throws. */
  function SettleTurn(db: State, m: Matching): Option<Matching> {
    match NextMaker(m)
    case None => None
    case Some((id, maker)) =>
      if FillAmount(maker, m.rest) == 0 then Some(m.(settled := m.settled + 1))
      else if m.taker.user !in m.held || maker.user !in m.held || |db.orders| <= id then None
      else
        var r := SettleOne(View(db, m), m.id, m.taker, id, maker);
        if r.Err? then None
        else
          var p := r.value;
          Some(m.(settled := m.settled + 1, rest := p.rest, matched := p.matched, tradeIds := p.tradeIds,
                  affected := p.affected,
                  wallets := m.wallets[m.taker.user := p.wallets[m.taker.user]][maker.user := p.wallets[maker.user]],
                  orders := m.orders[id := p.orders[id]], trades := p.trades[|db.trades|..]))
  }

  /** The state a finished matching transaction commits. */
  function Committed(db: State, m: Matching): State
    requires m.id < |db.orders|
  {
    if m.scan.makers == []
    then db.(orders := db.orders[m.id := m.taker.(status := Open)],
             events := db.events
               + [MarketChanged(OrderOpened, m.id, []), AccountChanged(OrderOpened, m.id, [], m.taker.user)])
    else Finish(db, m.id, m.taker, View(db, m))
  }

  function Next(w: World, step: Step): Option<World> {
    match step
    case Commit(c) =>
      if c.Process? || (w.matching.Some? && Blocked(w.db, w.matching.value, c)) then None
      else Some(w.(db := Apply(w.db, c), log := w.log + [c]))
    case Begin(id) =>
      if w.matching.Some? then None
      else if id < |w.db.orders| && w.db.orders[id].status == Queued then Some(w.(matching := Some(Started(w.db, id))))
      else Some(w.(log := w.log + [Process(id)]))
    case Scan(step) =>
      if w.matching.None? || !MakerScan.IsScanStep(step) then None
      else
        var m := w.matching.value;
        var scan := MakerScan.Next(ScanWorld(w.db, m), m.id, m.taker, step);
        if scan.None? then None else Some(w.(matching := Some(m.(scan := scan.value))))
    case LockWallet(user) =>
      if w.matching.None? then None
      else
        var m := w.matching.value;
        var next := NextMaker(m);
        if && next.Some? && 0 < FillAmount(next.value.1, m.rest)
           && user in {m.taker.user, next.value.1.user} && user < |w.db.wallets| && user !in m.held
        then Some(w.(matching := Some(m.(held := m.held + {user})))) else None
    case Settle =>
      if w.matching.None? then None
      else
        var m := SettleTurn(w.db, w.matching.value);
        if m.None? then None else Some(w.(matching := m))
    case Finished =>
      if w.matching.None? then None
      else
        var m := w.matching.value;
        if m.scan.phase == MakerScan.Done && m.settled == |m.scan.makers| && m.id < |w.db.orders|
        then Some(World(Committed(w.db, m), None, w.log + [Process(m.id)])) else None
    case Abort =>
      if w.matching.None? then None else Some(w.(matching := None))
  }

  function After(schedule: seq<Step>): Option<World> {
    if schedule == [] then Some(World(EMPTY, None, []))
    else
      var before := After(schedule[..|schedule| - 1]);
      if before.None? then None else Next(before.value, schedule[|schedule| - 1])
  }

  // ----- the invariant -----

  /** Every fill of the listed makers moved two wallets that are held. */
  ghost predicate MovesHeld(held: set<UserId>, taker: Order, book: seq<Order>, makers: seq<OrderId>, amount: nat)
    requires Rows(book, makers)
  {
    forall k :: 0 <= k < |makers| && 0 < FillAt(book, makers, amount, k) ==>
      taker.user in held && book[makers[k]].user in held
  }

  /** The part already settled is what settling it on the committed state, all at once, gives. */
  ghost predicate SettledSoFar(db: State, m: Matching) {
    && m.settled <= |m.scan.makers|
    && Rows(db.orders, m.scan.makers[..m.settled])
    && SettleAll(StartOf(db, m.taker), m.id, m.taker, db.orders, m.scan.makers[..m.settled]) == Ok(View(db, m))
    && MovesHeld(m.held, m.taker, db.orders, m.scan.makers[..m.settled], m.taker.remaining)
  }

  /** The makers settled so far, whose rows it may have written. */
  function SettledMakers(m: Matching): set<OrderId>
    requires m.settled <= |m.scan.makers|
  {
    set i | i in m.scan.makers[..m.settled]
  }

  ghost predicate WritesHeld(db: State, m: Matching)
    requires m.settled <= |m.scan.makers|
  {
    && (forall u :: u in m.held ==> u < |db.wallets|)
    && (forall u :: u in m.wallets ==> u in m.held)
    && (forall i :: i in m.orders ==> i in SettledMakers(m))
  }

  ghost predicate MatchingInv(db: State, m: Matching) {
    && MakerScan.ScanInv(ScanWorld(db, m), m.id, m.taker)
    && m.scan.cancelling == {}
    && (m.scan.phase != MakerScan.Done ==> m.settled == 0)
    && SettledSoFar(db, m)
    && WritesHeld(db, m)
  }

  ghost predicate WorldInv(w: World) {
    && w.db == Run(w.log)
    && (w.matching.Some? ==> MatchingInv(w.db, w.matching.value))
  }

  // ----- what the others leave alone -----

  /** Two progresses that agree on the held wallets, the locked orders and the loop's variables. */
  ghost predicate AgreeOn(a: Progress, b: Progress, held: set<UserId>, locked: set<OrderId>) {
    && |a.wallets| <= |b.wallets| && |a.orders| <= |b.orders|
    && (forall u :: u in held && u < |a.wallets| ==> a.wallets[u] == b.wallets[u])
    && (forall i :: i in locked && i < |a.orders| ==> a.orders[i] == b.orders[i])
    && a.trades == b.trades && a.rest == b.rest && a.matched == b.matched
    && a.tradeIds == b.tradeIds && a.affected == b.affected
  }

  /** Only held wallets and locked orders differ. */
  ghost predicate SameOff(a: Progress, b: Progress, held: set<UserId>, locked: set<OrderId>) {
    && |a.wallets| == |b.wallets| && |a.orders| == |b.orders|
    && (forall u :: 0 <= u < |a.wallets| && u !in held ==> a.wallets[u] == b.wallets[u])
    && (forall i :: 0 <= i < |a.orders| && i !in locked ==> a.orders[i] == b.orders[i])
  }

  lemma SettleOneFrame(a: Progress, b: Progress, held: set<UserId>, locked: set<OrderId>,
                       takerId: OrderId, taker: Order, makerId: OrderId, maker: Order)
    requires AgreeOn(a, b, held, locked) && makerId < |a.orders| && makerId in locked
    requires 0 < FillAmount(maker, a.rest) ==> taker.user in held && maker.user in held
    requires SettleOne(a, takerId, taker, makerId, maker).Ok?
    ensures var b' := SettleOne(b, takerId, taker, makerId, maker);
            && b'.Ok?
            && AgreeOn(SettleOne(a, takerId, taker, makerId, maker).value, b'.value, held, locked)
            && SameOff(b, b'.value, held, locked)
  {
  }

  lemma {:induction false} SettleAllFrame(a: Progress, b: Progress, held: set<UserId>, locked: set<OrderId>,
                       takerId: OrderId, taker: Order, bookA: seq<Order>, bookB: seq<Order>, makers: seq<OrderId>)
    requires AgreeOn(a, b, held, locked) && |bookA| == |a.orders| && |bookB| == |b.orders|
    requires Rows(bookA, makers) && Rows(bookB, makers)
    requires forall k :: 0 <= k < |makers| ==> makers[k] in locked && bookA[makers[k]] == bookB[makers[k]]
    requires MovesHeld(held, taker, bookA, makers, a.rest)
    requires SettleAll(a, takerId, taker, bookA, makers).Ok?
    ensures var b' := SettleAll(b, takerId, taker, bookB, makers);
            && b'.Ok?
            && AgreeOn(SettleAll(a, takerId, taker, bookA, makers).value, b'.value, held, locked)
            && SameOff(b, b'.value, held, locked)
    decreases |makers|
  {
    if makers != [] {
      var n := |makers| - 1;
      var front := makers[..n];
      assert MovesHeld(held, taker, bookA, front, a.rest) by {
        FrontMovesHeld(held, taker, bookA, makers, a.rest);
      }
      SettleAllFrame(a, b, held, locked, takerId, taker, bookA, bookB, front);
      var before := SettleAll(a, takerId, taker, bookA, front).value;
      RestOfSettled(a, takerId, taker, bookA, front);
      assert FillAt(bookA, makers, a.rest, n) == FillAmount(bookA[makers[n]], before.rest);
      SettleOneFrame(before, SettleAll(b, takerId, taker, bookB, front).value, held, locked, takerId, taker, makers[n],
                     bookA[makers[n]]);
    }
  }

  lemma FrontMovesHeld(held: set<UserId>, taker: Order, book: seq<Order>, makers: seq<OrderId>, amount: nat)
    requires makers != [] && Rows(book, makers) && MovesHeld(held, taker, book, makers, amount)
    ensures MovesHeld(held, taker, book, makers[..|makers| - 1], amount)
  {
    var front := makers[..|makers| - 1];
    forall k | 0 <= k < |front| && 0 < FillAt(book, front, amount, k)
      ensures taker.user in held && book[front[k]].user in held
    {
      assert front[..k] == makers[..k];
      assert 0 < FillAt(book, makers, amount, k);
    }
  }

  /** The loop's remainder is the one the selection pass computes. */
  lemma {:induction false} RestOfSettled(p: Progress, id: OrderId, taker: Order, book: seq<Order>, makers: seq<OrderId>)
    requires Rows(book, makers) && |book| == |p.orders| && SettleAll(p, id, taker, book, makers).Ok?
    ensures SettleAll(p, id, taker, book, makers).value.rest == RestAfter(book, makers, p.rest)
    decreases |makers|
  {
    if makers != [] {
      RestOfSettled(p, id, taker, book, makers[..|makers| - 1]);
    }
  }

  /** What another transaction may do while `m` is under way. */
  ghost predicate LeavesAlone(db: State, db': State, held: set<UserId>, locked: set<OrderId>) {
    && |db.wallets| <= |db'.wallets| && |db.orders| <= |db'.orders|
    && (forall u :: u in held && u < |db.wallets| ==> db'.wallets[u] == db.wallets[u])
    && (forall i :: i in locked && i < |db.orders| ==> db'.orders[i] == db.orders[i])
    && db'.trades == db.trades
  }

  /** Locks keep unblocked transactions off the rows of the matching one, and the book can only shrink. */
  lemma UnblockedLeavesAlone(db: State, m: Matching, c: Command)
    requires !Blocked(db, m, c)
    ensures LeavesAlone(db, Apply(db, c), m.held, m.scan.locked + {m.id})
    ensures MakerScan.Shrinks(db.orders, Apply(db, c).orders, m.taker, m.scan.locked)
  {
  }

  lemma OthersKeepSettled(db: State, db': State, m: Matching)
    requires SettledSoFar(db, m) && WritesHeld(db, m)
    requires LeavesAlone(db, db', m.held, SettledMakers(m))
    ensures SettledSoFar(db', m) && WritesHeld(db', m)
  {
    var makers := m.scan.makers[..m.settled];
    var a, b := StartOf(db, m.taker), StartOf(db', m.taker);
    forall k | 0 <= k < |makers|
      ensures makers[k] in SettledMakers(m) && db'.orders[makers[k]] == db.orders[makers[k]]
    {
    }
    SettleAllFrame(a, b, m.held, SettledMakers(m), m.id, m.taker, db.orders, db'.orders, makers);
    OthersKeepView(db, db', m, SettleAll(b, m.id, m.taker, db'.orders, makers).value);
    SameMovesHeld(m.held, m.taker, db.orders, db'.orders, makers, m.taker.remaining);
  }

  lemma OthersKeepView(db: State, db': State, m: Matching, p: Progress)
    requires m.settled <= |m.scan.makers| && Rows(db.orders, m.scan.makers[..m.settled])
    requires WritesHeld(db, m) && LeavesAlone(db, db', m.held, SettledMakers(m))
    requires AgreeOn(View(db, m), p, m.held, SettledMakers(m))
    requires SameOff(StartOf(db', m.taker), p, m.held, SettledMakers(m))
    ensures p == View(db', m)
  {
  }

  lemma SameMovesHeld(held: set<UserId>, taker: Order, orders: seq<Order>, later: seq<Order>, makers: seq<OrderId>,
          amount: nat)
    requires Rows(orders, makers) && Rows(later, makers) && MovesHeld(held, taker, orders, makers, amount)
    requires forall k :: 0 <= k < |makers| ==> later[makers[k]] == orders[makers[k]]
    ensures MovesHeld(held, taker, later, makers, amount)
  {
    forall k | 0 <= k < |makers| && 0 < FillAt(later, makers, amount, k)
      ensures taker.user in held && later[makers[k]].user in held
    {
      MakerScan.RestAfterFrame(orders, later, makers[..k], amount);
      assert 0 < FillAt(orders, makers, amount, k);
    }
  }

  lemma CommitKeeps(w: World, c: Command)
    requires WorldInv(w) && Next(w, Commit(c)).Some?
    ensures WorldInv(Next(w, Commit(c)).value)
  {
    var w' := Next(w, Commit(c)).value;
    RunOfLog(w.log, c);
    if w.matching.Some? {
      var m := w.matching.value;
      UnblockedLeavesAlone(w.db, m, c);
      assert SettledMakers(m) <= m.scan.locked;
      OthersKeepSettled(w.db, w'.db, m);
      ReachableRowsFine(w'.log);
      MakerScan.OthersKeep(ScanWorld(w.db, m), m.id, m.taker, w'.db.orders, {});
    }
  }

  lemma RunOfLog(log: seq<Command>, c: Command)
    ensures Run(log + [c]) == Apply(Run(log), c)
  {
  }

  lemma ReachableRowsFine(log: seq<Command>)
    ensures MakerScan.RowsFine(Run(log).orders)
  {
    Reachability.ReachableIsSound(log);
  }

  lemma BeginKeeps(w: World, id: OrderId)
    requires WorldInv(w) && Next(w, Begin(id)).Some?
    ensures WorldInv(Next(w, Begin(id)).value)
  {
    if id < |w.db.orders| && w.db.orders[id].status == Queued {
      ReachableRowsFine(w.log);
      StartKeeps(w.db, id);
    } else {
      RunOfLog(w.log, Process(id));
      NothingToProcess(w.db, id);
    }
  }

  lemma NothingToProcess(db: State, id: OrderId)
    requires |db.orders| <= id || db.orders[id].status != Queued
    ensures Apply(db, Process(id)) == db
  {
  }

  lemma StartKeeps(db: State, id: OrderId)
    requires id < |db.orders| && db.orders[id].status == Queued && MakerScan.RowsFine(db.orders)
    ensures MatchingInv(db, Started(db, id))
  {
    var m := Started(db, id);
    MakerScan.ScanStarts(db.orders, {}, id);
    assert ScanWorld(db, m) == m.scan;
    StartView(db, id);
    assert m.scan.makers[..0] == [];
  }

  lemma StartView(db: State, id: OrderId)
    requires id < |db.orders|
    ensures View(db, Started(db, id)) == StartOf(db, db.orders[id])
  {
  }

  lemma ScanKeeps(db: State, m: Matching, step: MakerScan.Step)
    requires MatchingInv(db, m) && MakerScan.IsScanStep(step)
    requires MakerScan.Next(ScanWorld(db, m), m.id, m.taker, step).Some?
    ensures MatchingInv(db, m.(scan := MakerScan.Next(ScanWorld(db, m), m.id, m.taker, step).value))
  {
    MakerScan.NextKeeps(ScanWorld(db, m), m.id, m.taker, step);
    var scan := MakerScan.Next(ScanWorld(db, m), m.id, m.taker, step).value;
    ScanKeepsSettled(db, m, scan);
    assert ScanWorld(db, m.(scan := scan)) == scan;
  }

  /** While the scan goes on nothing is settled. */
  lemma ScanKeepsSettled(db: State, m: Matching, scan: MakerScan.World)
    requires m.settled == 0 && SettledSoFar(db, m) && WritesHeld(db, m)
    ensures SettledSoFar(db, m.(scan := scan)) && WritesHeld(db, m.(scan := scan))
  {
    assert scan.makers[..0] == m.scan.makers[..0];
    assert View(db, m.(scan := scan)) == View(db, m);
  }

  lemma LockKeeps(db: State, m: Matching, user: UserId)
    requires MatchingInv(db, m) && user < |db.wallets|
    ensures MatchingInv(db, m.(held := m.held + {user}))
  {
    LockKeepsSettled(db, m, user);
    assert ScanWorld(db, m.(held := m.held + {user})) == ScanWorld(db, m);
  }

  lemma LockKeepsSettled(db: State, m: Matching, user: UserId)
    requires SettledSoFar(db, m) && WritesHeld(db, m) && user < |db.wallets|
    ensures SettledSoFar(db, m.(held := m.held + {user})) && WritesHeld(db, m.(held := m.held + {user}))
  {
    var m' := m.(held := m.held + {user});
    assert View(db, m') == View(db, m);
    WiderMovesHeld(m.held, m'.held, m.taker, db.orders, m.scan.makers[..m.settled], m.taker.remaining);
  }

  lemma WiderMovesHeld(held: set<UserId>, wider: set<UserId>, taker: Order, book: seq<Order>, makers: seq<OrderId>,
          amount: nat)
    requires Rows(book, makers) && held <= wider && MovesHeld(held, taker, book, makers, amount)
    ensures MovesHeld(wider, taker, book, makers, amount)
  {
  }

  lemma TurnKeeps(db: State, m: Matching)
    requires MatchingInv(db, m) && SettleTurn(db, m).Some?
    ensures MatchingInv(db, SettleTurn(db, m).value)
  {
    NextMakerIs(db, m);
    TurnWritesHeld(db, m);
    ViewAfterTurn(db, m);
    TurnSettles(db, m, SettleTurn(db, m).value);
  }

  /** What a turn leaves as it is, and that it only writes what is locked. */
  lemma TurnWritesHeld(db: State, m: Matching)
    requires SettleTurn(db, m).Some? && m.settled <= |m.scan.makers| && WritesHeld(db, m)
    ensures var m' := SettleTurn(db, m).value;
            && m'.scan == m.scan && m'.id == m.id && m'.taker == m.taker && m'.held == m.held
            && m'.settled == m.settled + 1 <= |m.scan.makers|
            && WritesHeld(db, m')
            && NextMaker(m).Some?
            && (0 < FillAmount(NextMaker(m).value.1, m.rest) ==>
               m.taker.user in m.held && NextMaker(m).value.1.user in m.held)
  {
  }

  /** The maker whose turn it is, and what the loop will fill of it. */
  lemma NextMakerIs(db: State, m: Matching)
    requires SettledSoFar(db, m) && MakerScan.Counts(ScanWorld(db, m), m.taker) && NextMaker(m).Some?
    ensures var k, makers := m.settled, m.scan.makers;
            && k < |makers| && NextMaker(m) == Some((makers[k], db.orders[makers[k]]))
            && Rows(db.orders, makers[..k + 1])
            && FillAt(db.orders, makers[..k + 1], m.taker.remaining, k) == FillAmount(db.orders[makers[k]], m.rest)
            && makers[..k + 1][..k] == makers[..k]
            && SettleAll(StartOf(db, m.taker), m.id, m.taker, db.orders, makers[..k + 1])
            == SettleOne(View(db, m), m.id, m.taker, makers[k], db.orders[makers[k]])
  {
    var k, makers := m.settled, m.scan.makers;
    assert makers[..k + 1][..k] == makers[..k];
    RestOfSettled(StartOf(db, m.taker), m.id, m.taker, db.orders, makers[..k]);
  }

  lemma MoreMovesHeld(held: set<UserId>, taker: Order, book: seq<Order>, makers: seq<OrderId>, amount: nat)
    requires makers != [] && Rows(book, makers) && MovesHeld(held, taker, book, makers[..|makers| - 1], amount)
    requires 0 < FillAt(book, makers, amount, |makers| - 1) ==>
             taker.user in held && book[makers[|makers| - 1]].user in held
    ensures MovesHeld(held, taker, book, makers, amount)
  {
    var front := makers[..|makers| - 1];
    forall k | 0 <= k < |makers| && 0 < FillAt(book, makers, amount, k)
      ensures taker.user in held && book[makers[k]].user in held
    {
      if k < |front| {
        assert front[..k] == makers[..k];
        assert 0 < FillAt(book, front, amount, k);
      }
    }
  }

  /** One turn on the view is the next turn of settling everything at once. */
  lemma TurnSettles(db: State, m: Matching, m': Matching)
    requires SettledSoFar(db, m)
    requires m'.scan == m.scan && m'.id == m.id && m'.taker == m.taker && m'.held == m.held
    requires m'.settled == m.settled + 1 <= |m.scan.makers|
    requires Rows(db.orders, m.scan.makers[..m.settled + 1])
    requires SettleAll(StartOf(db, m.taker), m.id, m.taker, db.orders, m.scan.makers[..m.settled + 1])
             == Ok(View(db, m'))
    requires 0 < FillAt(db.orders, m.scan.makers[..m.settled + 1], m.taker.remaining, m.settled) ==>
               m.taker.user in m.held && db.orders[m.scan.makers[m.settled]].user in m.held
    ensures SettledSoFar(db, m')
  {
    var k, makers := m.settled, m.scan.makers;
    assert makers[..k + 1][..k] == makers[..k];
    MoreMovesHeld(m.held, m.taker, db.orders, makers[..k + 1], m.taker.remaining);
  }

  /** The writes of one turn turn the view into what the turn computed. */
  lemma ViewAfterTurn(db: State, m: Matching)
    requires SettleTurn(db, m).Some? && NextMaker(m).Some? && NextMaker(m).value.0 < |db.orders|
    ensures SettleOne(View(db, m), m.id, m.taker, NextMaker(m).value.0, NextMaker(m).value.1)
         == Ok(View(db, SettleTurn(db, m).value))
  {
    var (id, maker) := NextMaker(m).value;
    var view, view' := View(db, m), View(db, SettleTurn(db, m).value);
    var p := SettleOne(view, m.id, m.taker, id, maker).value;
    if 0 < FillAmount(maker, m.rest) {
      SettleOneWrites(view, m.id, m.taker, id, maker);
      assert p.wallets == view'.wallets;
      assert p.orders == view'.orders;
      assert p.trades == view'.trades;
    }
  }

  /** A fill writes two wallets, one order and one trade. */
  lemma SettleOneWrites(p: Progress, takerId: OrderId, taker: Order, makerId: OrderId, maker: Order)
    requires makerId < |p.orders| && 0 < FillAmount(maker, p.rest)
    requires SettleOne(p, takerId, taker, makerId, maker).Ok?
    ensures var p' := SettleOne(p, takerId, taker, makerId, maker).value;
            && taker.user < |p.wallets| && maker.user < |p.wallets| && |p'.wallets| == |p.wallets|
            && p'.wallets == p.wallets[taker.user := p'.wallets[taker.user]][maker.user := p'.wallets[maker.user]]
            && |p'.orders| == |p.orders| && p'.orders == p.orders[makerId := p'.orders[makerId]]
            && p.trades <= p'.trades
  {
  }

  lemma FinishKeeps(w: World)
    requires WorldInv(w) && Next(w, Finished).Some?
    ensures WorldInv(Next(w, Finished).value)
  {
    var m := w.matching.value;
    CommittedIsProcessed(w.db, m);
    RunOfLog(w.log, Process(m.id));
    assert Outcome(w.db, Process(m.id)) == ProcessOrder(w.db, m.id);
  }

  /** With every maker settled, the view is what processing the order at once gives. */
  lemma CommittedIsProcessed(db: State, m: Matching)
    requires MatchingInv(db, m) && m.scan.phase == MakerScan.Done && m.settled == |m.scan.makers|
    ensures m.id < |db.orders| && ProcessOrder(db, m.id) == Ok(Committed(db, m))
  {
    MakerScan.DoneIsSelection(ScanWorld(db, m), m.id, m.taker);
    assert m.scan.makers[..m.settled] == m.scan.makers;
  }

  lemma NextKeeps(w: World, step: Step)
    requires WorldInv(w) && Next(w, step).Some?
    ensures WorldInv(Next(w, step).value)
  {
    match step
    case Commit(c) => CommitKeeps(w, c);
    case Begin(id) => BeginKeeps(w, id);
    case Scan(s) => ScanKeeps(w.db, w.matching.value, s);
    case LockWallet(user) => LockKeeps(w.db, w.matching.value, user);
    case Settle => TurnKeeps(w.db, w.matching.value);
    case Finished => FinishKeeps(w);
    case Abort =>
  }

  lemma {:induction false} SchedulesKeep(schedule: seq<Step>)
    requires After(schedule).Some?
    ensures WorldInv(After(schedule).value)
  {
    if schedule != [] {
      var n := |schedule| - 1;
      SchedulesKeep(schedule[..n]);
      NextKeeps(After(schedule[..n]).value, schedule[n]);
    }
  }

  // ----- serializability -----

  /**
   Every interleaving is serial: the committed state is the one the committed transactions
   give when each runs alone, in commit order. Whatever holds of every run of the engine
   therefore holds of every concurrent schedule.
   */
  lemma EveryScheduleIsSerial(schedule: seq<Step>)
    requires After(schedule).Some?
    ensures After(schedule).value.db == Run(After(schedule).value.log)
  {
    SchedulesKeep(schedule);
  }

  /** So every committed state balances, is uncrossed, and passes the ledger replay. */
  lemma ConcurrentStatesAreSound(schedule: seq<Step>)
    requires After(schedule).Some?
    ensures var w := After(schedule).value;
            Market.Sound(w.db, OpeningsOf(w.log)) && MonetaryOracle.Accepts(w.db, OpeningsOf(w.log))
  {
    EveryScheduleIsSerial(schedule);
    Reachability.ReachableIsSound(After(schedule).value.log);
    MonetaryOracle.EveryRunIsAccepted(After(schedule).value.log);
  }

  /** Alone, from the state it commits on, the matching transaction would have done the same. */
  lemma CommitsWhatItWouldDoAlone(schedule: seq<Step>)
    requires After(schedule).Some? && Next(After(schedule).value, Finished).Some?
    ensures var w := After(schedule).value;
            ProcessOrder(w.db, w.matching.value.id) == Ok(Next(w, Finished).value.db)
  {
    SchedulesKeep(schedule);
    CommittedIsProcessed(After(schedule).value.db, After(schedule).value.matching.value);
  }

  /** A guard that throws on the view would also throw on the committed state alone. */
  lemma {:induction false} FailedTurnFailsAlone(db: State, m: Matching)
    requires MatchingInv(db, m) && NextMaker(m).Some?
    requires SettleOne(View(db, m), m.id, m.taker, m.scan.makers[m.settled], db.orders[m.scan.makers[m.settled]]).Err?
    ensures ProcessOrder(db, m.id).Err?
  {
    NextMakerIs(db, m);
    MakerScan.DoneIsSelection(ScanWorld(db, m), m.id, m.taker);
    MatchingService.FailedStaysFailed(StartOf(db, m.taker), m.id, m.taker, db.orders, m.scan.makers, m.settled + 1);
  }
}
