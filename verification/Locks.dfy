/**
 The locks of concurrent transactions: the market's advisory lock, order rows and
 wallet rows, all kept until commit or rollback. Matching and rejection take the
 market first; matching then takes order rows one by one and, once the makers are
 chosen, wallet rows in no particular order across fills.
 */
module Locks {
  import opened Outcomes
  import opened Model

  datatype Resource = Market | OrderRow(id: OrderId) | WalletRow(user: UserId)

  datatype Program =
    | Matching(taker: OrderId)
    | Rejecting(order: OrderId)
    | Cancelling(order: OrderId, owner: UserId)
    | Creating(owner: UserId)

  /** How far a transaction has come in its program. */
  datatype Stage = Fresh | HasMarket | Selecting | Settling | HasOrder | HasWallet

  datatype Transaction = Transaction(program: Program, stage: Stage, held: set<Resource>, waiting: Option<Resource>)

  type TransactionId = nat
  type System = map<TransactionId, Transaction>

  datatype Step =
    | Begin(t: TransactionId, program: Program)
    | Request(t: TransactionId, resource: Resource)
    | Grant(t: TransactionId)
    | StartSettling(t: TransactionId)  // the makers are chosen
    | End(t: TransactionId)            // commit or rollback; every lock is released

  /** When a matching transaction locks its makers: all before the first wallet, or each as it is settled. */
  datatype MakerLocking = MakersFirst | MakersAsSettled

  /** The lock a program may ask for next. */
  predicate MayRequest(locking: MakerLocking, program: Program, stage: Stage, r: Resource) {
    match program
    case Matching(taker) =>
      (match stage
       case Fresh => r == Market
       case HasMarket => r == OrderRow(taker)
       case Selecting => r.OrderRow?
       case Settling => r.WalletRow? || (locking.MakersAsSettled? && r.OrderRow?)
       case _ => false)
    case Rejecting(order) =>
      (match stage
       case Fresh => r == Market
       case HasMarket => r == OrderRow(order)
       case HasOrder => r.WalletRow?
       case _ => false)
    case Cancelling(order, owner) =>
      (match stage
       case Fresh => r == OrderRow(order)
       case HasOrder => r == WalletRow(owner)
       case _ => false)
    case Creating(owner) => stage == Fresh && r == WalletRow(owner)
  }

  function StageAfter(program: Program, stage: Stage, r: Resource): Stage {
    match r
    case Market => HasMarket
    case OrderRow(_) => if program.Matching? then Selecting else HasOrder
    case WalletRow(_) => if program.Matching? then Settling else HasWallet
  }

  predicate Free(s: System, t: TransactionId, r: Resource) {
    forall u | u in s && u != t :: r !in s[u].held
  }

  function Next(locking: MakerLocking, s: System, step: Step): Option<System> {
    match step
    case Begin(t, program) =>
      if t in s then None else Some(s[t := Transaction(program, Fresh, {}, None)])
    case Request(t, r) =>
      if t in s && s[t].waiting.None? && MayRequest(locking, s[t].program, s[t].stage, r)
      then Some(s[t := s[t].(waiting := Some(r))]) else None
    case Grant(t) =>
      if t in s && s[t].waiting.Some? && Free(s, t, s[t].waiting.value)
      then
        var r := s[t].waiting.value;
        Some(s[t := s[t].(stage := StageAfter(s[t].program, s[t].stage, r), held := s[t].held + {r}, waiting := None)])
      else None
    case StartSettling(t) =>
      if t in s && s[t].program.Matching? && s[t].stage == Selecting && s[t].waiting.None?
      then Some(s[t := s[t].(stage := Settling)]) else None
    case End(t) =>
      if t in s && s[t].waiting.None? then Some(s - {t}) else None
  }

  function After(locking: MakerLocking, schedule: seq<Step>): Option<System> {
    if schedule == [] then Some(map[])
    else
      var before := After(locking, schedule[..|schedule| - 1]);
      if before.None? then None else Next(locking, before.value, schedule[|schedule| - 1])
  }

  // ----- what every schedule keeps -----

  predicate TakesMarket(program: Program) {
    program.Matching? || program.Rejecting?
  }

  /** What a transaction can hold at each stage. */
  ghost predicate Disciplined(x: Transaction) {
    && (x.stage == Fresh ==> x.held == {})
    && (x.stage == HasMarket ==> x.held == {Market})
    && (x.stage in {Selecting, Fresh, HasMarket, HasOrder} ==> forall r :: r in x.held ==> !r.WalletRow?)
    && (x.stage in {Selecting, Settling} ==> x.program.Matching?)
    && (TakesMarket(x.program) && x.stage != Fresh ==> Market in x.held)
    && (x.stage == HasWallet ==> x.waiting.None?)
    && (x.waiting.Some? ==> MayRequest(MakersFirst, x.program, x.stage, x.waiting.value))
  }

  ghost predicate Exclusive(s: System) {
    forall t, u :: t in s && u in s && t != u ==> s[t].held !! s[u].held
  }

  ghost predicate Orderly(s: System) {
    Exclusive(s) && forall t :: t in s ==> Disciplined(s[t])
  }

  lemma NextIsOrderly(s: System, step: Step)
    requires Orderly(s) && Next(MakersFirst, s, step).Some?
    ensures Orderly(Next(MakersFirst, s, step).value)
  {
    var s' := Next(MakersFirst, s, step).value;
    forall t | t in s'
      ensures Disciplined(s'[t])
    {
      if t in s {
        assert Disciplined(s[t]);
      }
    }
    NextIsExclusive(s, step);
  }

  lemma NextIsExclusive(s: System, step: Step)
    requires Exclusive(s) && Next(MakersFirst, s, step).Some?
    ensures Exclusive(Next(MakersFirst, s, step).value)
  {
  }

  lemma {:induction false} SchedulesAreOrderly(schedule: seq<Step>)
    requires After(MakersFirst, schedule).Some?
    ensures Orderly(After(MakersFirst, schedule).value)
  {
    if schedule != [] {
      var n := |schedule| - 1;
      SchedulesAreOrderly(schedule[..n]);
      NextIsOrderly(After(MakersFirst, schedule[..n]).value, schedule[n]);
    }
  }

  // ----- the order of each program's locks -----

  /** What a transaction holds at each stage of its program. */
  ghost predicate HoldsInOrder(x: Transaction) {
    match x.program
    case Matching(taker) =>
      && (x.stage == Fresh ==> x.held == {})
      && (x.stage == HasMarket ==> x.held == {Market})
      && x.stage in {Fresh, HasMarket, Selecting, Settling}
      && (x.stage in {Selecting, Settling} ==> Market in x.held && OrderRow(taker) in x.held)
      && (x.stage == Selecting ==> forall r :: r in x.held ==> !r.WalletRow?)
    case Rejecting(order) =>
      && (x.stage == Fresh ==> x.held == {})
      && (x.stage == HasMarket ==> x.held == {Market})
      && (x.stage == HasOrder ==> x.held == {Market, OrderRow(order)})
      && x.stage in {Fresh, HasMarket, HasOrder, HasWallet}
      && (x.stage == HasWallet ==> exists u :: x.held == {Market, OrderRow(order), WalletRow(u)})
    case Cancelling(order, owner) =>
      && (x.stage == Fresh ==> x.held == {})
      && (x.stage == HasOrder ==> x.held == {OrderRow(order)})
      && x.stage in {Fresh, HasOrder, HasWallet}
      && (x.stage == HasWallet ==> x.held == {OrderRow(order), WalletRow(owner)})
    case Creating(owner) =>
      && (x.stage == Fresh ==> x.held == {})
      && x.stage in {Fresh, HasWallet}
      && (x.stage == HasWallet ==> x.held == {WalletRow(owner)})
  }

  lemma GrantKeepsOrder(x: Transaction)
    requires HoldsInOrder(x) && x.waiting.Some? && MayRequest(MakersFirst, x.program, x.stage, x.waiting.value)
    ensures var r := x.waiting.value;
            HoldsInOrder(Transaction(x.program, StageAfter(x.program, x.stage, r), x.held + {r}, None))
  {
    var r := x.waiting.value;
    if x.program.Rejecting? && r.WalletRow? {
      assert x.held + {r} == {Market, OrderRow(x.program.order), WalletRow(r.user)};
    }
  }

  lemma NextHoldsInOrder(s: System, step: Step)
    requires Orderly(s) && (forall t :: t in s ==> HoldsInOrder(s[t])) && Next(MakersFirst, s, step).Some?
    ensures var s' := Next(MakersFirst, s, step).value;
            forall t :: t in s' ==> HoldsInOrder(s'[t])
  {
    if step.Grant? {
      assert Disciplined(s[step.t]);
      GrantKeepsOrder(s[step.t]);
    }
  }

  lemma {:induction false} SchedulesHoldInOrder(schedule: seq<Step>)
    requires After(MakersFirst, schedule).Some?
    ensures var s := After(MakersFirst, schedule).value;
            forall t :: t in s ==> HoldsInOrder(s[t])
  {
    if schedule != [] {
      var n := |schedule| - 1;
      SchedulesHoldInOrder(schedule[..n]);
      SchedulesAreOrderly(schedule[..n]);
      NextHoldsInOrder(After(MakersFirst, schedule[..n]).value, schedule[n]);
    }
  }

  /** The locks a transaction holds or waits for. */
  function Wanted(x: Transaction): set<Resource> {
    x.held + if x.waiting.Some? then {x.waiting.value} else {}
  }

  /**
   In every schedule: matching and rejection have the market before anything else and their
   order before any wallet; matching asks for no order row once it has a wallet; a
   cancellation has its order before its owner's wallet, a creation locks only its owner's.
   */
  lemma LocksAreTakenInOrder(schedule: seq<Step>, t: TransactionId)
    requires After(MakersFirst, schedule).Some? && t in After(MakersFirst, schedule).value
    ensures var x := After(MakersFirst, schedule).value[t];
            match x.program
            case Matching(taker) =>
              && (forall r :: r in Wanted(x) && r != Market ==> Market in x.held)
              && (forall r :: r in Wanted(x) && r != Market && r != OrderRow(taker) ==> OrderRow(taker) in x.held)
              && (x.waiting.Some? && x.waiting.value.OrderRow? ==> forall r :: r in x.held ==> !r.WalletRow?)
            case Rejecting(order) =>
              && (forall r :: r in Wanted(x) && r != Market ==> Market in x.held)
              && (forall r :: r in Wanted(x) && r.WalletRow? ==> OrderRow(order) in x.held)
              && (forall r :: r in Wanted(x) && r.OrderRow? ==> r.id == order)
            case Cancelling(order, owner) =>
              && Wanted(x) <= {OrderRow(order), WalletRow(owner)}
              && (WalletRow(owner) in Wanted(x) ==> OrderRow(order) in x.held)
            case Creating(owner) => Wanted(x) <= {WalletRow(owner)}
  {
    SchedulesHoldInOrder(schedule);
    SchedulesAreOrderly(schedule);
    var s := After(MakersFirst, schedule).value;
    assert HoldsInOrder(s[t]) && Disciplined(s[t]);
  }

  // ----- the wait-for graph -----

  /** `t` waits for a lock that `u` holds. */
  predicate WaitsFor(s: System, t: TransactionId, u: TransactionId) {
    t in s && u in s && t != u && s[t].waiting.Some? && s[t].waiting.value in s[u].held
  }

  /** The level of the awaited lock; at equal levels the one matching transaction comes last. */
  function Rank(x: Transaction): nat
    requires x.waiting.Some?
  {
    (match x.waiting.value case Market => 0 case OrderRow(_) => 2 case WalletRow(_) => 4)
    + (if x.program.Matching? then 1 else 0)
  }

  /** Along a chain of waits the rank strictly increases. */
  lemma WaitsClimb(s: System, t: TransactionId, u: TransactionId)
    requires Orderly(s) && WaitsFor(s, t, u) && s[u].waiting.Some?
    ensures Rank(s[t]) < Rank(s[u])
  {
  }

  ghost predicate IsChain(s: System, chain: seq<TransactionId>) {
    forall k :: 0 <= k < |chain| - 1 ==> WaitsFor(s, chain[k], chain[k + 1])
  }

  lemma {:induction false} ChainsClimb(s: System, chain: seq<TransactionId>, k: nat)
    requires Orderly(s) && IsChain(s, chain) && 0 < k < |chain|
    requires chain[0] in s && s[chain[0]].waiting.Some? && chain[k] in s && s[chain[k]].waiting.Some?
    ensures Rank(s[chain[0]]) < Rank(s[chain[k]])
  {
    assert WaitsFor(s, chain[k - 1], chain[k]);
    WaitsClimb(s, chain[k - 1], chain[k]);
    if k > 1 {
      ChainsClimb(s, chain, k - 1);
    }
  }

  /** No schedule of any number of transactions closes a cycle of waits. */
  lemma NoDeadlock(schedule: seq<Step>, chain: seq<TransactionId>)
    requires After(MakersFirst, schedule).Some? && 2 <= |chain| && IsChain(After(MakersFirst, schedule).value, chain)
    ensures chain[0] != chain[|chain| - 1]
  {
    var s := After(MakersFirst, schedule).value;
    SchedulesAreOrderly(schedule);
    assert WaitsFor(s, chain[0], chain[1]);
    if chain[0] == chain[|chain| - 1] {
      ChainsClimb(s, chain, |chain| - 1);
    }
  }

  /** A transaction that waits for nothing, or whose lock is free. */
  predicate CanProceed(s: System, t: TransactionId) {
    t in s && (s[t].waiting.Some? ==> Free(s, t, s[t].waiting.value))
  }

  /** While any transaction runs, one of them can go on: following the waits from any of them ends. */
  lemma {:induction false} SomeoneProceeds(s: System, t: TransactionId) returns (u: TransactionId)
    requires Orderly(s) && t in s
    ensures CanProceed(s, u)
    decreases if s[t].waiting.Some? then 6 - Rank(s[t]) else 0
  {
    if CanProceed(s, t) {
      u := t;
    } else {
      var holder :| holder in s && holder != t && s[t].waiting.value in s[holder].held;
      if s[holder].waiting.None? {
        u := holder;
      } else {
        WaitsClimb(s, t, holder);
        u := SomeoneProceeds(s, holder);
      }
    }
  }

  lemma EveryScheduleCanContinue(schedule: seq<Step>)
    requires After(MakersFirst, schedule).Some? && After(MakersFirst, schedule).value != map[]
    ensures exists t :: CanProceed(After(MakersFirst, schedule).value, t)
  {
    var s := After(MakersFirst, schedule).value;
    SchedulesAreOrderly(schedule);
    var t :| t in s;
    var u := SomeoneProceeds(s, t);
  }

  // ----- why the makers are locked before any wallet -----

  lemma Extends(locking: MakerLocking, schedule: seq<Step>, s: System, step: Step, s': System)
    returns (longer: seq<Step>)
    requires After(locking, schedule) == Some(s) && Next(locking, s, step) == Some(s')
    ensures After(locking, longer) == Some(s')
  {
    longer := schedule + [step];
    assert longer[..|schedule|] == schedule;
  }

  /** A transaction asks for a free lock and gets it. */
  lemma Takes(locking: MakerLocking, schedule: seq<Step>, s: System, t: TransactionId, r: Resource)
    returns (longer: seq<Step>, s': System)
    requires After(locking, schedule) == Some(s) && t in s && s[t].waiting.None?
    requires MayRequest(locking, s[t].program, s[t].stage, r) && Free(s, t, r)
    ensures After(locking, longer) == Some(s')
    ensures s' == s[t := Transaction(s[t].program, StageAfter(s[t].program, s[t].stage, r), s[t].held + {r}, None)]
  {
    var asking := s[t := s[t].(waiting := Some(r))];
    longer := Extends(locking, schedule, s, Request(t, r), asking);
    s' := asking[t := Transaction(s[t].program, StageAfter(s[t].program, s[t].stage, r), s[t].held + {r}, None)];
    longer := Extends(locking, longer, asking, Grant(t), s');
  }

  /** Transaction 0 matches `taker` and has locked `owner`'s wallet. */
  lemma MatchingHoldsWallet(locking: MakerLocking, taker: OrderId, owner: UserId)
    returns (schedule: seq<Step>, s: System)
    ensures After(locking, schedule) == Some(s)
    ensures s == map[0 := Transaction(Matching(taker), Settling, {Market, OrderRow(taker), WalletRow(owner)}, None)]
  {
    s := map[0 := Transaction(Matching(taker), Fresh, {}, None)];
    schedule := Extends(locking, [], map[], Begin(0, Matching(taker)), s);
    schedule, s := Takes(locking, schedule, s, 0, Market);
    schedule, s := Takes(locking, schedule, s, 0, OrderRow(taker));
    var settling := s[0 := s[0].(stage := Settling)];
    schedule := Extends(locking, schedule, s, StartSettling(0), settling);
    schedule, s := Takes(locking, schedule, settling, 0, WalletRow(owner));
    assert s[0].held == {Market, OrderRow(taker), WalletRow(owner)};
  }

  /** Beside it transaction 1 cancels `maker` and waits for the wallet. */
  lemma CancellationWaits(locking: MakerLocking, taker: OrderId, maker: OrderId, owner: UserId)
    returns (schedule: seq<Step>, s: System)
    requires taker != maker
    ensures After(locking, schedule) == Some(s)
    ensures s == map[0 := Transaction(Matching(taker), Settling, {Market, OrderRow(taker), WalletRow(owner)}, None),
                     1 := Transaction(Cancelling(maker, owner), HasOrder, {OrderRow(maker)}, Some(WalletRow(owner)))]
  {
    schedule, s := MatchingHoldsWallet(locking, taker, owner);
    var begun := s[1 := Transaction(Cancelling(maker, owner), Fresh, {}, None)];
    schedule := Extends(locking, schedule, s, Begin(1, Cancelling(maker, owner)), begun);
    schedule, s := Takes(locking, schedule, begun, 1, OrderRow(maker));
    var waiting := s[1 := s[1].(waiting := Some(WalletRow(owner)))];
    schedule := Extends(locking, schedule, s, Request(1, WalletRow(owner)), waiting);
    s := waiting;
    assert s[1].held == {OrderRow(maker)};
  }

  /**
   Were each maker locked only as it is settled, some schedule would close a cycle: a matching
   transaction that holds a wallet asks for a maker whose cancellation waits for that wallet.
   */
  lemma InterleavedLocksWouldDeadlock(taker: OrderId, maker: OrderId, owner: UserId) returns (schedule: seq<Step>)
    requires taker != maker
    ensures After(MakersAsSettled, schedule).Some?
    ensures IsChain(After(MakersAsSettled, schedule).value, [0, 1, 0])
  {
    var s;
    schedule, s := CancellationWaits(MakersAsSettled, taker, maker, owner);
    var closed := s[0 := s[0].(waiting := Some(OrderRow(maker)))];
    schedule := Extends(MakersAsSettled, schedule, s, Request(0, OrderRow(maker)), closed);
    assert WaitsFor(closed, 0, 1) && WaitsFor(closed, 1, 0);
  }

  // ----- every program can get its locks -----

  /** A matching transaction alone locks any makers, one by one. */
  lemma {:induction false} MakersAreLocked(taker: OrderId, makers: seq<OrderId>)
    returns (schedule: seq<Step>, s: System)
    ensures After(MakersFirst, schedule) == Some(s)
    ensures s == map[0 := Transaction(Matching(taker), Selecting,
                                      {Market, OrderRow(taker)} + (set i | i in makers :: OrderRow(i)), None)]
  {
    if makers == [] {
      s := map[0 := Transaction(Matching(taker), Fresh, {}, None)];
      schedule := Extends(MakersFirst, [], map[], Begin(0, Matching(taker)), s);
      schedule, s := Takes(MakersFirst, schedule, s, 0, Market);
      schedule, s := Takes(MakersFirst, schedule, s, 0, OrderRow(taker));
      assert s[0].held == {Market, OrderRow(taker)} + (set i | i in makers :: OrderRow(i));
    } else {
      var n := |makers| - 1;
      schedule, s := MakersAreLocked(taker, makers[..n]);
      schedule, s := Takes(MakersFirst, schedule, s, 0, OrderRow(makers[n]));
      assert (set i | i in makers :: OrderRow(i)) == (set i | i in makers[..n] :: OrderRow(i)) + {OrderRow(makers[n])};
      assert s[0].held == {Market, OrderRow(taker)} + (set i | i in makers :: OrderRow(i));
    }
  }

  /** Every program, running alone, gets every lock it asks for. */
  lemma ProgramsGetTheirLocks(program: Program, makers: seq<OrderId>, owner: UserId, other: UserId)
    returns (schedule: seq<Step>, s: System)
    ensures After(MakersFirst, schedule) == Some(s) && s.Keys == {0} && s[0].program == program
    ensures s[0].held
         == match program
            case Matching(taker) =>
              {Market, OrderRow(taker)} + (set i | i in makers :: OrderRow(i)) + {WalletRow(owner), WalletRow(other)}
            case Rejecting(order) => {Market, OrderRow(order), WalletRow(owner)}
            case Cancelling(order, user) => {OrderRow(order), WalletRow(user)}
            case Creating(user) => {WalletRow(user)}
  {
    if program.Matching? {
      schedule, s := MakersAreLocked(program.taker, makers);
      var settling := s[0 := s[0].(stage := Settling)];
      schedule := Extends(MakersFirst, schedule, s, StartSettling(0), settling);
      schedule, s := Takes(MakersFirst, schedule, settling, 0, WalletRow(owner));
      schedule, s := Takes(MakersFirst, schedule, s, 0, WalletRow(other));
      assert {WalletRow(owner)} + {WalletRow(other)} == {WalletRow(owner), WalletRow(other)};
    } else {
      s := map[0 := Transaction(program, Fresh, {}, None)];
      schedule := Extends(MakersFirst, [], map[], Begin(0, program), s);
      match program {
        case Rejecting(order) =>
          schedule, s := Takes(MakersFirst, schedule, s, 0, Market);
          schedule, s := Takes(MakersFirst, schedule, s, 0, OrderRow(order));
          schedule, s := Takes(MakersFirst, schedule, s, 0, WalletRow(owner));
        case Cancelling(order, user) =>
          schedule, s := Takes(MakersFirst, schedule, s, 0, OrderRow(order));
          schedule, s := Takes(MakersFirst, schedule, s, 0, WalletRow(user));
        case Creating(user) =>
          schedule, s := Takes(MakersFirst, schedule, s, 0, WalletRow(user));
      }
    }
  }
}
