/**
 The transactions beside matching, in small steps: they begin, lock an order row, update a
 wallet row under its guard, and commit or roll back, all interleaved with one another and
 with the steps of a matching transaction. Row locks are kept to the end, and uncommitted
 writes are seen by nobody else. Every schedule of small steps is a schedule of
 `Serializability`, where each of these transactions is one step at its commit.
 */
module SmallSteps {
  import opened Outcomes
  import opened Decimals
  import opened Model
  import opened Engine
  import opened Serializability
  import Ledger
  import MakerScan
  import Market
  import Reachability

  type TransactionId = nat

  /** A creation, cancellation or rejection under way: the order row it locked and the wallet row it wrote. */
  datatype Pending = Pending(command: Command, order: Option<Order>, wallet: Option<Wallet>)

  /** `drawn` are the sequence numbers handed out so far, in whatever order; none is handed out twice. */
  datatype Floor = Floor(world: World, pending: map<TransactionId, Pending>, drawn: set<nat>)

  datatype SmallStep =
    | MatchingStep(step: Step)
    | AccountOpens(balance: Opening)
    | Start(t: TransactionId, command: Command)
    | LockOrder(t: TransactionId)
    | WriteWallet(t: TransactionId)
    | CommitPending(t: TransactionId)
    | RollBack(t: TransactionId)

  predicate Closes(c: Command) {
    c.Cancel? || c.Reject?
  }

  /** The order row a pending transaction has locked. */
  predicate LocksOrder(x: Pending, id: OrderId) {
    Closes(x.command) && x.order.Some? && x.command.id == id
  }

  /** The user whose wallet row it writes. */
  function Owner(x: Pending): Option<UserId> {
    match x.command
    case Create(user, _, _, _, _) => Some(user)
    case Cancel(user, _) => Some(user)
    case Reject(_) => if x.order.Some? then Some(x.order.value.user) else None
    case _ => None
  }

  predicate LocksWallet(x: Pending, u: UserId) {
    x.wallet.Some? && Owner(x) == Some(u)
  }

  predicate OrderFree(f: Floor, id: OrderId) {
    && (forall t | t in f.pending :: !LocksOrder(f.pending[t], id))
    && (f.world.matching.Some? ==> id != f.world.matching.value.id && id !in f.world.matching.value.scan.locked)
  }

  predicate WalletFree(f: Floor, u: UserId) {
    && (forall t | t in f.pending :: !LocksWallet(f.pending[t], u))
    && (f.world.matching.Some? ==> u !in f.world.matching.value.held)
  }

  predicate MarketFree(f: Floor) {
    f.world.matching.None? && forall t | t in f.pending :: !f.pending[t].command.Reject?
  }

  /** The matching transaction's requests wait for the rows and the market pending transactions hold. */
  predicate MatchingMay(f: Floor, step: Step) {
    match step
    case Commit(_) => false
    case Begin(id) => MarketFree(f) && OrderFree(f, id)
    case Scan(s) =>
      s.Lock? && f.world.matching.Some? && f.world.matching.value.scan.phase.Waiting? ==>
        forall t | t in f.pending :: !LocksOrder(f.pending[t], f.world.matching.value.scan.phase.candidate)
    case LockWallet(u) => forall t | t in f.pending :: !LocksWallet(f.pending[t], u)
    case _ => true
  }

  /** The locked order row, if the transaction accepts it. */
  function OrderRead(db: State, c: Command): Option<Order> {
    match c
    case Cancel(user, id) =>
      if id < |db.orders| && db.orders[id].user == user && IsActive(db.orders[id].status) then Some(db.orders[id])
      else None
    case Reject(id) => if id < |db.orders| && db.orders[id].status == Queued then Some(db.orders[id]) else None
    case _ => None
  }

  predicate ValidInput(amount: int, price: int) {
    && 0 < amount <= DECIMAL_MAX && 0 < price <= DECIMAL_MAX
    && 0 < Cost(amount, price) <= DECIMAL_MAX
  }

  /** The wallet row as the guarded update leaves it, if its guard holds. */
  function WalletWritten(db: State, x: Pending): Option<Wallet> {
    match x.command
    case Create(user, side, amount, price, sequence) =>
      if !ValidInput(amount, price) || |db.wallets| <= user then None
      else
        var o := Order(sequence, user, side, Queued, price, amount, amount);
        var r := Reserve(db.wallets, user, HeldAsset(side), Held(o, HeldAsset(side)));
        if r.Ok? then Some(r.value[user]) else None
    case Cancel(user, _) => if x.order.Some? then Released(db, x.order.value) else None
    case Reject(_) => if x.order.Some? then Released(db, x.order.value) else None
    case _ => None
  }

  function Released(db: State, o: Order): Option<Wallet> {
    var r := Release(db.wallets, o);
    if r.Ok? && o.user < |db.wallets| then Some(r.value[o.user]) else None
  }

  /** The committed state once a pending transaction's writes are added to it. */
  function Written(db: State, x: Pending): Option<State> {
    if Owner(x).None? || x.wallet.None? || |db.wallets| <= Owner(x).value then None
    else
      var wallets := db.wallets[Owner(x).value := x.wallet.value];
      match x.command
      case Create(user, side, amount, price, sequence) =>
        if amount < 0 || price < 0 then None
        else
          var id := |db.orders|;
          var o := Order(sequence, user, side, Queued, price, amount, amount);
          Some(db.(wallets := wallets, orders := db.orders + [o],
                   events := db.events + [AccountChanged(OrderCreated, id, [], user)], intents := db.intents + [id]))
      case Cancel(user, id) =>
        if x.order.None? || |db.orders| <= id then None
        else
          Some(db.(wallets := wallets, orders := db.orders[id := x.order.value.(status := Cancelled)],
                   events := db.events
                          + [MarketChanged(OrderCancelled, id, []), AccountChanged(OrderCancelled, id, [], user)]))
      case Reject(id) =>
        if x.order.None? || |db.orders| <= id then None
        else
          Some(db.(wallets := wallets, orders := db.orders[id := x.order.value.(status := Rejected)],
                   events := db.events + [AccountChanged(OrderRejected, id, [], x.order.value.user)]))
      case _ => None
  }

  function NextSmall(f: Floor, step: SmallStep): Option<Floor> {
    match step
    case MatchingStep(s) =>
      if !MatchingMay(f, s) then None
      else
        var world := Next(f.world, s);
        if world.None? then None else Some(f.(world := world.value))
    case AccountOpens(b) =>
      Some(f.(world := f.world.(db := Apply(f.world.db, OpenAccount(b)), log := f.world.log + [OpenAccount(b)])))
    case Start(t, c) =>
      if t in f.pending || !(c.Create? || Closes(c)) || (c.Reject? && !MarketFree(f)) then None
      else if !c.Create? then Some(f.(pending := f.pending[t := Pending(c, None, None)]))
      else if c.sequence in f.drawn then None
      else Some(f.(pending := f.pending[t := Pending(c, None, None)], drawn := f.drawn + {c.sequence}))
    case LockOrder(t) =>
      if t !in f.pending || !Closes(f.pending[t].command) || f.pending[t].order.Some? then None
      else
        var o := OrderRead(f.world.db, f.pending[t].command);
        if o.None? || !OrderFree(f, f.pending[t].command.id) then None
        else Some(f.(pending := f.pending[t := f.pending[t].(order := o)]))
    case WriteWallet(t) =>
      if t !in f.pending || f.pending[t].wallet.Some? then None
      else
        var w := WalletWritten(f.world.db, f.pending[t]);
        if w.None? || Owner(f.pending[t]).None? || !WalletFree(f, Owner(f.pending[t]).value) then None
        else Some(f.(pending := f.pending[t := f.pending[t].(wallet := w)]))
    case CommitPending(t) =>
      if t !in f.pending then None
      else
        var db := Written(f.world.db, f.pending[t]);
        if db.None? then None
        else Some(f.(world := f.world.(db := db.value, log := f.world.log + [f.pending[t].command]),
                     pending := f.pending - {t}))
    case RollBack(t) => Some(f.(pending := f.pending - {t}))
  }

  function AfterSmall(schedule: seq<SmallStep>): Option<Floor> {
    if schedule == [] then Some(Floor(World(EMPTY, None, []), map[], {}))
    else
      var before := AfterSmall(schedule[..|schedule| - 1]);
      if before.None? then None else NextSmall(before.value, schedule[|schedule| - 1])
  }

  // ----- what locks preserve -----

  /** What a pending transaction read and wrote is what it would read and write now. */
  ghost predicate Current(db: State, x: Pending) {
    && (x.command.Create? || Closes(x.command))
    && (x.order.Some? ==> Closes(x.command) && OrderRead(db, x.command) == x.order)
    && (x.wallet.Some? ==> Owner(x).Some? && Owner(x).value < |db.wallets| && WalletWritten(db, x) == x.wallet)
    && (x.command.Create? ==> !IsTaken(db.orders, x.command.sequence))
  }

  /** It holds nothing the matching transaction holds. */
  ghost predicate Apart(matching: Option<Matching>, x: Pending) {
    matching.Some? ==>
      && !x.command.Reject?
      && (x.order.Some? && Closes(x.command) ==>
         x.command.id != matching.value.id && x.command.id !in matching.value.scan.locked)
      && (x.wallet.Some? && Owner(x).Some? ==> Owner(x).value !in matching.value.held)
  }

  ghost predicate Disjoint(x: Pending, y: Pending) {
    && (forall id: OrderId :: !(LocksOrder(x, id) && LocksOrder(y, id)))
    && (forall u: UserId :: !(LocksWallet(x, u) && LocksWallet(y, u)))
    && !(x.command.Reject? && y.command.Reject?)
    && (x.command.Create? && y.command.Create? ==> x.command.sequence != y.command.sequence)
  }

  /** Whoever has a sequence number has drawn it. */
  ghost predicate NumbersDrawn(f: Floor) {
    && (forall n: nat :: IsTaken(f.world.db.orders, n) ==> n in f.drawn)
    && (forall t :: t in f.pending && f.pending[t].command.Create? ==> f.pending[t].command.sequence in f.drawn)
  }

  ghost predicate FloorInv(f: Floor) {
    && WorldInv(f.world)
    && NumbersDrawn(f)
    && (forall t :: t in f.pending ==> Current(f.world.db, f.pending[t]) && Apart(f.world.matching, f.pending[t]))
    && (forall t, u :: t in f.pending && u in f.pending && t != u ==> Disjoint(f.pending[t], f.pending[u]))
  }

  /** `db'` leaves alone the rows `x` has locked. */
  ghost predicate Spares(db: State, db': State, x: Pending) {
    && |db.wallets| <= |db'.wallets| && |db.orders| <= |db'.orders|
    && (forall id: OrderId :: LocksOrder(x, id) && id < |db.orders| ==> db'.orders[id] == db.orders[id])
    && (forall u: UserId :: LocksWallet(x, u) && u < |db.wallets| ==> db'.wallets[u] == db.wallets[u])
    && (x.command.Create? && !IsTaken(db.orders, x.command.sequence) ==> !IsTaken(db'.orders, x.command.sequence))
  }

  lemma SparedStaysCurrent(db: State, db': State, x: Pending)
    requires Current(db, x) && Spares(db, db', x)
    ensures Current(db', x)
  {
    if x.order.Some? {
      assert LocksOrder(x, x.command.id);
    }
    if x.wallet.Some? {
      assert LocksWallet(x, Owner(x).value);
    }
  }

  /** At its commit the transaction does what it would do alone on the committed state. */
  lemma WrittenIsApplied(db: State, x: Pending)
    requires Current(db, x) && Written(db, x).Some?
    ensures Outcome(db, x.command) == Ok(Written(db, x).value) && Apply(db, x.command) == Written(db, x).value
  {
  }

  /** No lock stands in the way of its commit. */
  lemma PendingIsUnblocked(db: State, m: Matching, x: Pending)
    requires Current(db, x) && Apart(Some(m), x) && Written(db, x).Some?
    ensures !Blocked(db, m, x.command)
  {
  }

  lemma WrittenSparesOthers(db: State, x: Pending, y: Pending)
    requires Current(db, x) && Written(db, x).Some? && Disjoint(x, y)
    ensures Spares(db, Written(db, x).value, y)
  {
    assert LocksWallet(x, Owner(x).value);
    if Closes(x.command) {
      assert LocksOrder(x, x.command.id);
    }
  }

  /** No order of `later` has a number that none of `orders` has. */
  ghost predicate NoNewNumbers(orders: seq<Order>, later: seq<Order>) {
    forall n: nat :: IsTaken(later, n) ==> IsTaken(orders, n)
  }

  lemma FinishedKeepsNumbers(w: World)
    requires WorldInv(w) && Next(w, Finished).Some?
    ensures NoNewNumbers(w.db.orders, Next(w, Finished).value.db.orders)
  {
    var m := w.matching.value;
    CommittedIsProcessed(w.db, m);
    Reachability.ReachableIsSound(w.log);
    ProcessedKeepsNumbers(w.db, OpeningsOf(w.log), m.id, Committed(w.db, m));
  }

  lemma ProcessedKeepsNumbers(s: State, openings: seq<Opening>, id: OrderId, s': State)
    requires Market.Sound(s, openings) && ProcessOrder(s, id) == Ok(s') && s.orders[id].status == Queued
    ensures NoNewNumbers(s.orders, s'.orders)
  {
    forall i: OrderId | i < |s'.orders|
      ensures |s'.orders| == |s.orders| && s'.orders[i].sequence == s.orders[i].sequence
    {
      Market.OthersShrink(s, openings, id, s', id);
      Market.OthersShrink(s, openings, id, s', i);
    }
  }

  lemma CommittedSparesPending(db: State, m: Matching, x: Pending)
    requires MatchingInv(db, m) && m.settled == |m.scan.makers| && m.id < |db.orders| && Apart(Some(m), x)
    requires NoNewNumbers(db.orders, Committed(db, m).orders)
    ensures Spares(db, Committed(db, m), x)
  {
    var db' := Committed(db, m);
    assert |db'.orders| == |db.orders| && |db'.wallets| == |db.wallets|;
    forall i: OrderId | i < |db.orders| && i != m.id && i !in m.scan.locked
      ensures db'.orders[i] == db.orders[i]
    {
      assert i in SettledMakers(m) ==> i in m.scan.locked;
    }
  }

  // ----- the steps -----

  /** A small commit is a commit of `Serializability`. */
  lemma CommitRefines(f: Floor, t: TransactionId)
    requires FloorInv(f) && NextSmall(f, CommitPending(t)).Some?
    ensures Next(f.world, Commit(f.pending[t].command)) == Some(NextSmall(f, CommitPending(t)).value.world)
  {
    var x := f.pending[t];
    WrittenIsApplied(f.world.db, x);
    if f.world.matching.Some? {
      PendingIsUnblocked(f.world.db, f.world.matching.value, x);
    }
  }

  /** What a commit adds to the orders has the number its transaction drew. */
  lemma WrittenNumbers(db: State, x: Pending, n: nat)
    requires Written(db, x).Some? && IsTaken(Written(db, x).value.orders, n)
    requires Current(db, x)
    ensures IsTaken(db.orders, n) || (x.command.Create? && n == x.command.sequence)
  {
  }

  lemma CommitKeepsNumbers(f: Floor, t: TransactionId)
    requires FloorInv(f) && NextSmall(f, CommitPending(t)).Some?
    ensures NumbersDrawn(NextSmall(f, CommitPending(t)).value)
  {
    var f' := NextSmall(f, CommitPending(t)).value;
    forall n: nat | IsTaken(f'.world.db.orders, n)
      ensures n in f'.drawn
    {
      WrittenNumbers(f.world.db, f.pending[t], n);
    }
  }

  lemma CommitKeeps(f: Floor, t: TransactionId)
    requires FloorInv(f) && NextSmall(f, CommitPending(t)).Some?
    ensures FloorInv(NextSmall(f, CommitPending(t)).value)
  {
    var f' := NextSmall(f, CommitPending(t)).value;
    CommitRefines(f, t);
    CommitKeepsNumbers(f, t);
    Serializability.NextKeeps(f.world, Commit(f.pending[t].command));
    forall u | u in f'.pending
      ensures Current(f'.world.db, f'.pending[u])
    {
      WrittenSparesOthers(f.world.db, f.pending[t], f.pending[u]);
      SparedStaysCurrent(f.world.db, f'.world.db, f.pending[u]);
    }
  }

  lemma AccountKeeps(f: Floor, b: Opening)
    requires FloorInv(f)
    ensures FloorInv(NextSmall(f, AccountOpens(b)).value)
    ensures Next(f.world, Commit(OpenAccount(b))) == Some(NextSmall(f, AccountOpens(b)).value.world)
  {
    var f' := NextSmall(f, AccountOpens(b)).value;
    Serializability.NextKeeps(f.world, Commit(OpenAccount(b)));
    forall u | u in f'.pending
      ensures Current(f'.world.db, f'.pending[u])
    {
      SparedStaysCurrent(f.world.db, f'.world.db, f.pending[u]);
    }
  }

  /** Only a finished matching transaction changes the committed state. */
  lemma OnlyFinishedWrites(w: World, s: Step)
    requires !s.Commit? && !s.Finished? && Next(w, s).Some?
    ensures Next(w, s).value.db == w.db
  {
  }

  lemma FinishedWrites(w: World)
    requires Next(w, Finished).Some?
    ensures var m := w.matching;
            m.Some? && m.value.settled == |m.value.scan.makers| && m.value.id < |w.db.orders|
            && Next(w, Finished).value.db == Committed(w.db, m.value)
  {
  }

  lemma CommittedKeepsCurrent(db: State, m: Matching, x: Pending)
    requires MatchingInv(db, m) && m.settled == |m.scan.makers| && m.id < |db.orders|
    requires Current(db, x) && Apart(Some(m), x) && NoNewNumbers(db.orders, Committed(db, m).orders)
    ensures Current(Committed(db, m), x)
  {
    CommittedSparesPending(db, m, x);
    SparedStaysCurrent(db, Committed(db, m), x);
  }

  lemma MatchingKeepsCurrent(w: World, s: Step, x: Pending)
    requires WorldInv(w) && !s.Commit? && Next(w, s).Some? && Current(w.db, x) && Apart(w.matching, x)
    ensures Current(Next(w, s).value.db, x)
  {
    if s.Finished? {
      FinishedWrites(w);
      FinishedKeepsNumbers(w);
      CommittedKeepsCurrent(w.db, w.matching.value, x);
    } else {
      OnlyFinishedWrites(w, s);
    }
  }

  /** What the matching transaction locks, it locks apart from the pending ones. */
  lemma MatchingStaysApart(f: Floor, s: Step, t: TransactionId)
    requires MatchingMay(f, s) && Next(f.world, s).Some? && t in f.pending
    requires Current(f.world.db, f.pending[t]) && Apart(f.world.matching, f.pending[t])
    ensures Apart(Next(f.world, s).value.matching, f.pending[t])
  {
    var x := f.pending[t];
    assert x.order.Some? ==> LocksOrder(x, x.command.id);
    assert x.wallet.Some? ==> LocksWallet(x, Owner(x).value);
    match s
    case Scan(step) => ScanStaysApart(f.world.db, f.world.matching.value, step, x);
    case _ =>
  }

  lemma ScanStaysApart(db: State, m: Serializability.Matching, step: MakerScan.Step, x: Pending)
    requires MakerScan.IsScanStep(step) && MakerScan.Next(ScanWorld(db, m), m.id, m.taker, step).Some?
    requires step.Lock? && m.scan.phase.Waiting? ==> !LocksOrder(x, m.scan.phase.candidate)
    requires x.order.Some? ==> Closes(x.command)
    requires Apart(Some(m), x)
    ensures Apart(Some(m.(scan := MakerScan.Next(ScanWorld(db, m), m.id, m.taker, step).value)), x)
  {
  }

  lemma MatchingKeepsNumbers(w: World, s: Step)
    requires WorldInv(w) && !s.Commit? && Next(w, s).Some?
    ensures NoNewNumbers(w.db.orders, Next(w, s).value.db.orders)
  {
    if s.Finished? {
      FinishedKeepsNumbers(w);
    } else {
      OnlyFinishedWrites(w, s);
    }
  }

  lemma MatchingKeeps(f: Floor, s: Step)
    requires FloorInv(f) && NextSmall(f, MatchingStep(s)).Some?
    ensures FloorInv(NextSmall(f, MatchingStep(s)).value)
  {
    Serializability.NextKeeps(f.world, s);
    MatchingKeepsNumbers(f.world, s);
    var f' := NextSmall(f, MatchingStep(s)).value;
    forall t | t in f'.pending
      ensures Current(f'.world.db, f'.pending[t]) && Apart(f'.world.matching, f'.pending[t])
    {
      MatchingKeepsCurrent(f.world, s, f.pending[t]);
      MatchingStaysApart(f, s, t);
    }
  }

  lemma DisjointIsSymmetric(x: Pending, y: Pending)
    requires Disjoint(x, y)
    ensures Disjoint(y, x)
  {
  }

  /** One pending transaction moves on. */
  lemma PendingKeeps(f: Floor, t: TransactionId, x: Pending)
    requires FloorInv(f) && (x.command.Create? ==> x.command.sequence in f.drawn)
    requires Current(f.world.db, x) && Apart(f.world.matching, x)
    requires forall u :: u in f.pending && u != t ==> Disjoint(x, f.pending[u])
    ensures FloorInv(f.(pending := f.pending[t := x]))
  {
    var f' := f.(pending := f.pending[t := x]);
    forall u, v | u in f'.pending && v in f'.pending && u != v
      ensures Disjoint(f'.pending[u], f'.pending[v])
    {
      if v == t {
        DisjointIsSymmetric(x, f.pending[u]);
      }
    }
  }

  lemma StartKeeps(f: Floor, t: TransactionId, c: Command)
    requires FloorInv(f) && NextSmall(f, Start(t, c)).Some?
    ensures FloorInv(NextSmall(f, Start(t, c)).value)
  {
    var x := Pending(c, None, None);
    var drawn := if c.Create? then f.drawn + {c.sequence} else f.drawn;
    forall u | u in f.pending
      ensures Disjoint(x, f.pending[u])
    {
      assert Current(f.world.db, f.pending[u]) && Apart(f.world.matching, f.pending[u]);
    }
    PendingKeeps(f.(drawn := drawn), t, x);
  }

  lemma LockKeeps(f: Floor, t: TransactionId)
    requires FloorInv(f) && NextSmall(f, LockOrder(t)).Some?
    ensures FloorInv(NextSmall(f, LockOrder(t)).value)
  {
    var x := f.pending[t];
    var x' := x.(order := OrderRead(f.world.db, x.command));
    assert Current(f.world.db, x) && Apart(f.world.matching, x);
    forall u | u in f.pending && u != t
      ensures Disjoint(x', f.pending[u])
    {
      assert Disjoint(x, f.pending[u]);
    }
    PendingKeeps(f, t, x');
  }

  lemma WriteKeeps(f: Floor, t: TransactionId)
    requires FloorInv(f) && NextSmall(f, WriteWallet(t)).Some?
    ensures FloorInv(NextSmall(f, WriteWallet(t)).value)
  {
    var x := f.pending[t];
    var x' := x.(wallet := WalletWritten(f.world.db, x));
    assert Current(f.world.db, x) && Apart(f.world.matching, x);
    WriteIsCurrent(f.world.db, x);
    forall u | u in f.pending && u != t
      ensures Disjoint(x', f.pending[u])
    {
      assert Disjoint(x, f.pending[u]);
    }
    PendingKeeps(f, t, x');
  }

  lemma WriteIsCurrent(db: State, x: Pending)
    requires Current(db, x) && WalletWritten(db, x).Some?
    ensures Current(db, x.(wallet := WalletWritten(db, x)))
  {
  }

  lemma RollBackKeeps(f: Floor, t: TransactionId)
    requires FloorInv(f)
    ensures FloorInv(NextSmall(f, RollBack(t)).value)
  {
  }

  lemma SmallStepKeeps(f: Floor, step: SmallStep)
    requires FloorInv(f) && NextSmall(f, step).Some?
    ensures FloorInv(NextSmall(f, step).value)
  {
    match step
    case MatchingStep(s) => MatchingKeeps(f, s);
    case AccountOpens(b) => AccountKeeps(f, b);
    case Start(t, c) => StartKeeps(f, t, c);
    case LockOrder(t) => LockKeeps(f, t);
    case WriteWallet(t) => WriteKeeps(f, t);
    case CommitPending(t) => CommitKeeps(f, t);
    case RollBack(t) => RollBackKeeps(f, t);
  }

  lemma {:induction false} SmallSchedulesKeep(schedule: seq<SmallStep>)
    requires AfterSmall(schedule).Some?
    ensures FloorInv(AfterSmall(schedule).value)
  {
    if schedule != [] {
      var n := |schedule| - 1;
      SmallSchedulesKeep(schedule[..n]);
      SmallStepKeeps(AfterSmall(schedule[..n]).value, schedule[n]);
    }
  }

  // ----- refinement -----

  /** The step of `Serializability` a small step amounts to, if any. */
  function Coarse(f: Floor, step: SmallStep): seq<Step> {
    match step
    case MatchingStep(s) => [s]
    case AccountOpens(b) => [Commit(OpenAccount(b))]
    case CommitPending(t) => if t in f.pending then [Commit(f.pending[t].command)] else []
    case _ => []
  }

  lemma StepRefines(f: Floor, step: SmallStep, coarse: seq<Step>)
    requires FloorInv(f) && NextSmall(f, step).Some? && After(coarse) == Some(f.world)
    ensures After(coarse + Coarse(f, step)) == Some(NextSmall(f, step).value.world)
  {
    if Coarse(f, step) == [] {
      assert coarse + Coarse(f, step) == coarse;
    } else {
      assert (coarse + Coarse(f, step))[..|coarse|] == coarse;
      match step
      case AccountOpens(b) => AccountKeeps(f, b);
      case CommitPending(t) => CommitRefines(f, t);
      case _ =>
    }
  }

  /** The schedule of `Serializability` behind a schedule of small steps. */
  function Behind(schedule: seq<SmallStep>): seq<Step> {
    if schedule == [] then []
    else
      var before := AfterSmall(schedule[..|schedule| - 1]);
      Behind(schedule[..|schedule| - 1]) + if before.Some? then Coarse(before.value, schedule[|schedule| - 1]) else []
  }

  /** Small steps refine the single steps: whatever they interleave, the same world is reached behind them. */
  lemma {:induction false} SmallStepsRefine(schedule: seq<SmallStep>)
    requires AfterSmall(schedule).Some?
    ensures After(Behind(schedule)) == Some(AfterSmall(schedule).value.world)
  {
    if schedule != [] {
      var n := |schedule| - 1;
      SmallSchedulesKeep(schedule[..n]);
      SmallStepsRefine(schedule[..n]);
      StepRefines(AfterSmall(schedule[..n]).value, schedule[n], Behind(schedule[..n]));
    }
  }

  /**
   Creations, cancellations, rejections, account openings and a matching transaction, all
   interleaved statement by statement: the committed state is the one a serial run in commit
   order gives.
   */
  lemma EveryInterleavingIsSerial(schedule: seq<SmallStep>)
    requires AfterSmall(schedule).Some?
    ensures AfterSmall(schedule).value.world.db == Run(AfterSmall(schedule).value.world.log)
  {
    SmallStepsRefine(schedule);
    EveryScheduleIsSerial(Behind(schedule));
  }

  /** A transaction that commits does what it would do alone on the state it commits on. */
  lemma PendingCommitsWhatItWouldDoAlone(schedule: seq<SmallStep>, t: TransactionId)
    requires AfterSmall(schedule).Some? && NextSmall(AfterSmall(schedule).value, CommitPending(t)).Some?
    ensures var f := AfterSmall(schedule).value;
            Outcome(f.world.db, f.pending[t].command) == Ok(NextSmall(f, CommitPending(t)).value.world.db)
  {
    SmallSchedulesKeep(schedule);
    var f := AfterSmall(schedule).value;
    WrittenIsApplied(f.world.db, f.pending[t]);
  }
  /** Numbers drawn in one order and committed in another stay unique, and no insertion finds its own taken. */
  lemma NumbersStayUnique(schedule: seq<SmallStep>, t: TransactionId)
    requires AfterSmall(schedule).Some?
    ensures var f := AfterSmall(schedule).value;
            && Sequenced(f.world.db.orders)
            && (t in f.pending && f.pending[t].command.Create? ==>
               !IsTaken(f.world.db.orders, f.pending[t].command.sequence))
  {
    SmallSchedulesKeep(schedule);
    EveryInterleavingIsSerial(schedule);
    Reachability.ReachableIsSound(AfterSmall(schedule).value.world.log);
    assert t in AfterSmall(schedule).value.pending ==>
        Current(AfterSmall(schedule).value.world.db, AfterSmall(schedule).value.pending[t]);
  }

  // ----- the guards -----

  /** The guard of the wallet update decides as the whole transaction, alone on the committed state, would. */
  lemma GuardDecides(db: State, x: Pending)
    requires Current(db, x) && (Closes(x.command) ==> x.order.Some?)
    ensures WalletWritten(db, x).Some? <==> Outcome(db, x.command).Ok?
  {
  }

  /**
   With bounded supply no cancellation or rejection that has its order row ever meets a
   failing guard, whatever commits beside it: it waits for its owner's wallet row, if anything.
   */
  lemma NoReleaseFails(schedule: seq<SmallStep>, t: TransactionId)
    requires AfterSmall(schedule).Some? && t in AfterSmall(schedule).value.pending
    requires var x := AfterSmall(schedule).value.pending[t];
             Closes(x.command) && x.order.Some?
    requires forall asset ::
               Ledger.TotalOpening(OpeningsOf(AfterSmall(schedule).value.world.log), asset) <= DECIMAL_MAX
    ensures var f := AfterSmall(schedule).value;
            var x := f.pending[t];
            && WalletWritten(f.world.db, x).Some?
            && (x.wallet.None? ==> (NextSmall(f, WriteWallet(t)).Some? <==> WalletFree(f, x.order.value.user)))
            && (x.wallet.Some? ==> NextSmall(f, CommitPending(t)).Some?)
  {
    SmallSchedulesKeep(schedule);
    EveryInterleavingIsSerial(schedule);
    var f := AfterSmall(schedule).value;
    Reachability.NothingButFundsFails(f.world.log, f.pending[t].command);
    ReleaseGoesOn(f, t);
  }

  lemma ReleaseGoesOn(f: Floor, t: TransactionId)
    requires t in f.pending && Closes(f.pending[t].command) && f.pending[t].order.Some?
    requires Current(f.world.db, f.pending[t]) && Outcome(f.world.db, f.pending[t].command).Ok?
    ensures var x := f.pending[t];
            && WalletWritten(f.world.db, x).Some?
            && (x.wallet.None? ==> (NextSmall(f, WriteWallet(t)).Some? <==> WalletFree(f, x.order.value.user)))
            && (x.wallet.Some? ==> NextSmall(f, CommitPending(t)).Some?)
  {
    GuardDecides(f.world.db, f.pending[t]);
  }

  /** A creation's guard fails on bad input, an unknown account or too little available, and on nothing else. */
  lemma CreationFailsOnFunds(schedule: seq<SmallStep>, t: TransactionId)
    requires AfterSmall(schedule).Some? && t in AfterSmall(schedule).value.pending
    requires AfterSmall(schedule).value.pending[t].command.Create?
    requires forall asset ::
               Ledger.TotalOpening(OpeningsOf(AfterSmall(schedule).value.world.log), asset) <= DECIMAL_MAX
    ensures var f := AfterSmall(schedule).value;
            var Create(user, side, amount, price, sequence) := f.pending[t].command;
            WalletWritten(f.world.db, f.pending[t]).Some? <==>
              && ValidInput(amount, price) && user < |f.world.db.wallets|
              && (if side.Buy? then Cost(amount, price) <= f.world.db.wallets[user].availableUsd
                  else amount <= f.world.db.wallets[user].availableBtc)
  {
    SmallSchedulesKeep(schedule);
    EveryInterleavingIsSerial(schedule);
    var f := AfterSmall(schedule).value;
    Reachability.NothingButFundsFails(f.world.log, f.pending[t].command);
    GuardDecides(f.world.db, f.pending[t]);
  }

  // ----- nobody waits but for a lock -----

  /** No pending transaction has locked the row of order `id`. */
  ghost predicate PendingLeaveOrder(f: Floor, id: OrderId) {
    forall t :: t in f.pending && f.pending[t].order.Some? ==>
      f.pending[t].command.Cancel? || f.pending[t].command.Reject? ==> f.pending[t].command.id != id
  }

  /** No pending transaction has written the wallet of `u`. */
  ghost predicate PendingLeaveWallet(f: Floor, u: UserId) {
    forall t :: t in f.pending && f.pending[t].wallet.Some? ==>
      && (f.pending[t].command.Create? || f.pending[t].command.Cancel? ==> f.pending[t].command.user != u)
      && (f.pending[t].command.Reject? && f.pending[t].order.Some? ==> f.pending[t].order.value.user != u)
  }

  /** No rejection, which would have the market, is pending. */
  ghost predicate PendingLeaveMarket(f: Floor) {
    forall t :: t in f.pending ==> !f.pending[t].command.Reject?
  }

  /** The rows and the market that `c` needs are not locked by anybody. */
  ghost predicate NothingLocked(f: Floor, c: Command) {
    var m := f.world.matching;
    match c
    case Create(user, _, _, _, _) => PendingLeaveWallet(f, user) && (m.Some? ==> user !in m.value.held)
    case Cancel(user, id) =>
      && PendingLeaveOrder(f, id) && PendingLeaveWallet(f, user)
      && (m.Some? ==> id != m.value.id && id !in m.value.scan.locked && user !in m.value.held)
    case Reject(id) =>
      && m.None? && PendingLeaveMarket(f) && PendingLeaveOrder(f, id)
      && (id < |f.world.db.orders| ==> PendingLeaveWallet(f, f.world.db.orders[id].user))
    case _ => false
  }

  lemma OneMoreSmallStep(schedule: seq<SmallStep>, step: SmallStep)
    requires AfterSmall(schedule).Some?
    ensures AfterSmall(schedule + [step]) == NextSmall(AfterSmall(schedule).value, step)
  {
    assert (schedule + [step])[..|schedule|] == schedule;
  }

  /** It begins; a creation's number is new. */
  lemma TransactionStarts(f: Floor, t: TransactionId, c: Command)
    requires t !in f.pending && NothingLocked(f, c) && (c.Create? ==> c.sequence !in f.drawn)
    ensures var f' := NextSmall(f, Start(t, c));
            && f'.Some? && f'.value.world == f.world && f'.value.pending == f.pending[t := Pending(c, None, None)]
  {
  }

  /** The row a cancellation or rejection that succeeds reads. */
  function RowFor(db: State, c: Command): Option<Order> {
    if Closes(c) && c.id < |db.orders| then Some(db.orders[c.id]) else None
  }

  lemma TransactionLocks(f: Floor, t: TransactionId, c: Command)
    requires t in f.pending && f.pending[t] == Pending(c, None, None) && Closes(c)
    requires NothingLocked(f.(pending := f.pending - {t}), c) && Outcome(f.world.db, c).Ok?
    requires c.Reject? ==> c.id < |f.world.db.orders| && f.world.db.orders[c.id].status == Queued
    ensures NextSmall(f, LockOrder(t))
         == Some(f.(pending := f.pending[t := Pending(c, RowFor(f.world.db, c), None)]))
  {
    forall u | u in f.pending
      ensures !LocksOrder(f.pending[u], c.id)
    {
      assert u != t ==> u in f.pending - {t};
    }
  }

  lemma TransactionWrites(f: Floor, t: TransactionId, c: Command)
    requires t in f.pending && f.pending[t] == Pending(c, RowFor(f.world.db, c), None)
    requires NothingLocked(f.(pending := f.pending - {t}), c) && Outcome(f.world.db, c).Ok?
    requires Current(f.world.db, f.pending[t]) && (Closes(c) ==> f.pending[t].order.Some?)
    ensures var w := WalletWritten(f.world.db, f.pending[t]);
            && w.Some?
            && NextSmall(f, WriteWallet(t)) == Some(f.(pending := f.pending[t := f.pending[t].(wallet := w)]))
  {
    GuardDecides(f.world.db, f.pending[t]);
    forall u | u in f.pending
      ensures !LocksWallet(f.pending[u], Owner(f.pending[t]).value)
    {
      assert u != t ==> u in f.pending - {t};
    }
  }

  lemma TransactionCommits(f: Floor, t: TransactionId, c: Command)
    requires t in f.pending && f.pending[t].command == c && Current(f.world.db, f.pending[t])
    requires f.pending[t].wallet.Some? && (Closes(c) ==> f.pending[t].order.Some?)
    ensures NextSmall(f, CommitPending(t))
         == Some(f.(world := f.world.(db := Apply(f.world.db, c), log := f.world.log + [c]),
                    pending := f.pending - {t}))
  {
    WrittenIsApplied(f.world.db, f.pending[t]);
  }

  lemma CurrentReads(db: State, c: Command)
    requires Outcome(db, c).Ok? && (c.Create? || Closes(c))
    requires c.Reject? ==> c.id < |db.orders| && db.orders[c.id].status == Queued
    ensures Current(db, Pending(c, RowFor(db, c), None)) && (Closes(c) ==> RowFor(db, c).Some?)
  {
  }

  /** `f'` is `f` with `c` committed, as it would be alone; nothing else has moved. */
  ghost predicate HasRun(f: Floor, f': Floor, c: Command) {
    && f'.world == f.world.(db := Apply(f.world.db, c), log := f.world.log + [c])
    && f'.pending == f.pending
  }

  /**
   From every floor a creation, cancellation or rejection that would succeed alone, and whose
   rows nobody has locked, runs to its commit beside whatever is under way, and commits what it
   would do alone.
   */
  lemma TransactionRuns(schedule: seq<SmallStep>, t: TransactionId, c: Command) returns (longer: seq<SmallStep>)
    requires AfterSmall(schedule).Some?
    requires var f := AfterSmall(schedule).value;
             && t !in f.pending && NothingLocked(f, c) && Outcome(f.world.db, c).Ok?
             && (c.Create? ==> c.sequence !in f.drawn)
             && (c.Reject? ==> c.id < |f.world.db.orders| && f.world.db.orders[c.id].status == Queued)
    ensures AfterSmall(longer).Some? && HasRun(AfterSmall(schedule).value, AfterSmall(longer).value, c)
  {
    var f := AfterSmall(schedule).value;
    TransactionStarts(f, t, c);
    OneMoreSmallStep(schedule, Start(t, c));
    longer := schedule + [Start(t, c)];
    var f1 := AfterSmall(longer).value;
    assert f1.pending - {t} == f.pending;
    CurrentReads(f.world.db, c);
    if Closes(c) {
      TransactionLocks(f1, t, c);
      OneMoreSmallStep(longer, LockOrder(t));
      longer := longer + [LockOrder(t)];
    }
    var f2 := AfterSmall(longer).value;
    assert f2.pending - {t} == f.pending;
    TransactionWrites(f2, t, c);
    OneMoreSmallStep(longer, WriteWallet(t));
    longer := longer + [WriteWallet(t)];
    var f3 := AfterSmall(longer).value;
    assert f3.pending - {t} == f.pending;
    WriteIsCurrent(f.world.db, f2.pending[t]);
    TransactionCommits(f3, t, c);
    OneMoreSmallStep(longer, CommitPending(t));
    longer := longer + [CommitPending(t)];
  }

  /** A step of the matching transaction waits only for the row or the market a pending one has. */
  lemma MatchingStepGoesOn(f: Floor, s: Step)
    requires Next(f.world, s).Some? && !s.Commit?
    requires match s
             case Begin(id) => f.world.matching.None? && PendingLeaveMarket(f) && PendingLeaveOrder(f, id)
             case Scan(step) =>
               step == MakerScan.Lock && f.world.matching.value.scan.phase.Waiting? ==>
                 PendingLeaveOrder(f, f.world.matching.value.scan.phase.candidate)
             case LockWallet(u) => PendingLeaveWallet(f, u)
             case _ => true
    ensures NextSmall(f, MatchingStep(s)) == Some(f.(world := Next(f.world, s).value))
  {
  }
}
