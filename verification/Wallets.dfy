/** The database a transaction works on, and the guarded wallet updates. */
module Wallets {
  import opened Outcomes
  import opened Decimals
  import opened Model
  import opened Engine

  class Database {
    var wallets: seq<Wallet>
    var orders: seq<Order>
    var trades: seq<Trade>
    var events: seq<Event>
    var intents: seq<OrderId>

    /** The value of the whole database. */
    function Snapshot(): State
      reads this
    {
      State(wallets, orders, trades, events, intents)
    }

    /** The constraints of the tables. */
    ghost predicate Valid()
      reads this
    {
      WellFormed(wallets, orders)
    }

    constructor ()
      ensures Valid() && Snapshot() == EMPTY
    {
      wallets, orders, trades, events, intents := [], [], [], [], [];
    }

    /** Rolls back to an earlier value. */
    method Restore(s: State)
      modifies this
      ensures Snapshot() == s
    {
      wallets, orders, trades, events, intents := s.wallets, s.orders, s.trades, s.events, s.intents;
    }
  }

  datatype Field = AvailableBtc | ReservedBtc | AvailableUsd | ReservedUsd
  datatype Change = Increment(amount: int) | Decrement(amount: int)
  datatype Bound = AtMost(limit: int) | AtLeast(limit: int)

  /** The fields an update names, each with its change. */
  type BalanceUpdate = seq<(Field, Change)>

  function Get(w: Wallet, f: Field): int {
    match f
    case AvailableBtc => w.availableBtc
    case ReservedBtc => w.reservedBtc
    case AvailableUsd => w.availableUsd
    case ReservedUsd => w.reservedUsd
  }

  function Set(w: Wallet, f: Field, x: int): Wallet {
    match f
    case AvailableBtc => w.(availableBtc := x)
    case ReservedBtc => w.(reservedBtc := x)
    case AvailableUsd => w.(availableUsd := x)
    case ReservedUsd => w.(reservedUsd := x)
  }

  function Changed(c: Change, x: int): int {
    match c
    case Increment(amount) => x + amount
    case Decrement(amount) => x - amount
  }

  function BoundOf(c: Change): Bound {
    match c
    case Increment(amount) => AtMost(DECIMAL_MAX - amount)
    case Decrement(amount) => AtLeast(amount)
  }

  predicate Meets(x: int, b: Bound) {
    match b
    case AtMost(limit) => x <= limit
    case AtLeast(limit) => limit <= x
  }

  function Applied(w: Wallet, data: BalanceUpdate): Wallet
    decreases |data|
  {
    if data == [] then w
    else
      var before := Applied(w, data[..|data| - 1]);
      var (field, change) := data[|data| - 1];
      Set(before, field, Changed(change, Get(before, field)))
  }

  ghost predicate DeltasValid(data: BalanceUpdate) {
    forall k :: 0 <= k < |data| ==> 0 <= data[k].1.amount <= DECIMAL_MAX
  }

  ghost predicate FieldsDistinct(data: BalanceUpdate) {
    forall j, k :: 0 <= j < k < |data| ==> data[j].0 != data[k].0
  }

  /** The live row satisfies the bound of every changed field. */
  ghost predicate Fits(w: Wallet, data: BalanceUpdate) {
    forall k :: 0 <= k < |data| ==> Meets(Get(w, data[k].0), BoundOf(data[k].1))
  }

  /** Builds the write predicate, refusing a negative or oversized change. */
  method BalanceConstraints(data: BalanceUpdate) returns (r: Result<map<Field, Bound>>)
    requires FieldsDistinct(data)
    ensures r.Ok? <==> DeltasValid(data)
    ensures r.Ok? ==> r.value.Keys == set k | 0 <= k < |data| :: data[k].0
    ensures r.Ok? ==> forall k :: 0 <= k < |data| ==> data[k].0 in r.value && r.value[data[k].0] == BoundOf(data[k].1)
  {
    var where: map<Field, Bound> := map[];
    for i := 0 to |data|
      invariant forall k :: 0 <= k < i ==> 0 <= data[k].1.amount <= DECIMAL_MAX
      invariant where.Keys == set k | 0 <= k < i :: data[k].0
      invariant forall k :: 0 <= k < i ==> data[k].0 in where && where[data[k].0] == BoundOf(data[k].1)
    {
      var (field, change) := data[i];
      if DECIMAL_MAX < Abs(change.amount) {
        return Err(Overflow);
      }
      if change.amount < 0 {
        return Err(NegativeDelta);
      }
      where := where[field := BoundOf(change)];
    }
    return Ok(where);
  }

  predicate Matches(w: Wallet, where: map<Field, Bound>) {
    forall f | f in where :: Meets(Get(w, f), where[f])
  }

  /** One guarded UPDATE: every bound is checked on the live row, and all changes are made or none. */
  method GuardedUpdate(tx: Database, user: UserId, data: BalanceUpdate) returns (r: Result<bool>)
    requires FieldsDistinct(data)
    modifies tx`wallets
    ensures r.Ok? <==> DeltasValid(data)
    ensures r.Ok? ==> (r.value <==> user < |old(tx.wallets)| && Fits(old(tx.wallets)[user], data))
    ensures r.Ok? && r.value ==> tx.wallets == old(tx.wallets)[user := Applied(old(tx.wallets)[user], data)]
    ensures r.Err? || !r.value ==> tx.wallets == old(tx.wallets)
  {
    var where :- BalanceConstraints(data);
    if user < |tx.wallets| && Matches(tx.wallets[user], where) {
      tx.wallets := tx.wallets[user := Applied(tx.wallets[user], data)];
      return Ok(true);
    }
    return Ok(false);
  }

  method UpdateBalances(tx: Database, user: UserId, data: BalanceUpdate) returns (r: Result<()>)
    requires FieldsDistinct(data)
    modifies tx`wallets
    ensures r.Ok? <==> DeltasValid(data) && user < |old(tx.wallets)| && Fits(old(tx.wallets)[user], data)
    ensures r.Ok? ==> tx.wallets == old(tx.wallets)[user := Applied(old(tx.wallets)[user], data)]
    ensures r.Err? ==> tx.wallets == old(tx.wallets)
    ensures DeltasValid(data) && r.Err? ==> r.error == BalanceBounds
  {
    var updated :- GuardedUpdate(tx, user, data);
    return if updated then Ok(()) else Err(BalanceBounds);
  }

  function ShiftUpdate(asset: Asset, available: Change, reserved: Change): BalanceUpdate {
    if asset.Usd? then [(AvailableUsd, available), (ReservedUsd, reserved)]
    else [(AvailableBtc, available), (ReservedBtc, reserved)]
  }

  lemma AppliedOne(w: Wallet, a: (Field, Change))
    ensures Applied(w, [a]) == Set(w, a.0, Changed(a.1, Get(w, a.0)))
  {
  }

  lemma AppliedTwo(w: Wallet, a: (Field, Change), b: (Field, Change))
    requires a.0 != b.0
    ensures FieldsDistinct([a, b])
    ensures Applied(w, [a, b]) == Set(Set(w, a.0, Changed(a.1, Get(w, a.0))), b.0, Changed(b.1, Get(w, b.0)))
    ensures Fits(w, [a, b]) <==> Meets(Get(w, a.0), BoundOf(a.1)) && Meets(Get(w, b.0), BoundOf(b.1))
    ensures DeltasValid([a, b]) <==> 0 <= a.1.amount <= DECIMAL_MAX && 0 <= b.1.amount <= DECIMAL_MAX
  {
    var data := [a, b];
    AppliedOne(w, a);
    assert data[..1] == [a];
    assert data[0] == a && data[1] == b;
  }

  lemma AppliedThree(w: Wallet, a: (Field, Change), b: (Field, Change), c: (Field, Change))
    requires a.0 != b.0 && a.0 != c.0 && b.0 != c.0
    ensures FieldsDistinct([a, b, c])
    ensures Applied(w, [a, b, c])
         == Set(Set(Set(w, a.0, Changed(a.1, Get(w, a.0))), b.0, Changed(b.1, Get(w, b.0))),
                c.0, Changed(c.1, Get(w, c.0)))
    ensures Fits(w, [a, b, c]) <==>
      Meets(Get(w, a.0), BoundOf(a.1)) && Meets(Get(w, b.0), BoundOf(b.1)) && Meets(Get(w, c.0), BoundOf(c.1))
    ensures DeltasValid([a, b, c]) <==>
      0 <= a.1.amount <= DECIMAL_MAX && 0 <= b.1.amount <= DECIMAL_MAX && 0 <= c.1.amount <= DECIMAL_MAX
  {
    var data := [a, b, c];
    AppliedTwo(w, a, b);
    assert data[..2] == [a, b];
    assert data[0] == a && data[1] == b && data[2] == c;
  }

  lemma ShiftIsApplied(w: Wallet, asset: Asset, available: Change, reserved: Change)
    ensures FieldsDistinct(ShiftUpdate(asset, available, reserved))
    ensures Applied(w, ShiftUpdate(asset, available, reserved))
         == if asset.Usd?
            then w.(availableUsd := Changed(available, w.availableUsd), reservedUsd := Changed(reserved, w.reservedUsd))
            else w.(availableBtc := Changed(available, w.availableBtc), reservedBtc := Changed(reserved, w.reservedBtc))
    ensures Fits(w, ShiftUpdate(asset, available, reserved))
       <==> Meets(Available(w, asset), BoundOf(available)) && Meets(Reserved(w, asset), BoundOf(reserved))
    ensures DeltasValid(ShiftUpdate(asset, available, reserved))
       <==> 0 <= available.amount <= DECIMAL_MAX && 0 <= reserved.amount <= DECIMAL_MAX
  {
    if asset.Usd? {
      AppliedTwo(w, (AvailableUsd, available), (ReservedUsd, reserved));
    } else {
      AppliedTwo(w, (AvailableBtc, available), (ReservedBtc, reserved));
    }
  }

  /** What an order must set aside: its rounded cost, or its BTC amount. */
  function RequiredAmount(side: Side, amount: nat, price: nat): Result<int> {
    if side.Buy? then MultiplyScaled(amount, price) else Ok(amount)
  }

  /** Reserves what a new order needs; too little available money refuses it. */
  method ReserveFunds(tx: Database, user: UserId, side: Side, amount: nat, price: nat) returns (r: Result<()>)
    requires user < |tx.wallets|
    modifies tx`wallets
    ensures var o := Order(0, user, side, Queued, price, amount, amount);
            var e := Reserve(old(tx.wallets), user, HeldAsset(side), Held(o, HeldAsset(side)));
            amount <= DECIMAL_MAX && Cost(amount, price) <= DECIMAL_MAX ==>
              if e.Ok? then r.Ok? && tx.wallets == e.value
              else r == Err(e.error) && tx.wallets == old(tx.wallets)
    ensures r.Err? ==> tx.wallets == old(tx.wallets)
  {
    var asset := if side.Buy? then Usd else Btc;
    CostIsMultiply(amount, price);
    var required :- RequiredAmount(side, amount, price);
    ShiftIsApplied(tx.wallets[user], asset, Decrement(required), Increment(required));
    var reserved :- GuardedUpdate(tx, user, ShiftUpdate(asset, Decrement(required), Increment(required)));
    return if reserved then Ok(()) else Err(InsufficientFunds);
  }

  method ReleaseFunds(tx: Database, o: Order) returns (r: Result<()>)
    modifies tx`wallets
    ensures var e := Release(old(tx.wallets), o);
            o.remaining <= DECIMAL_MAX && Cost(o.remaining, o.price) <= DECIMAL_MAX ==>
              if e.Ok? then r.Ok? && tx.wallets == e.value
              else r == Err(e.error) && tx.wallets == old(tx.wallets)
    ensures r.Err? ==> tx.wallets == old(tx.wallets)
  {
    var asset := if o.side.Buy? then Usd else Btc;
    CostIsMultiply(o.remaining, o.price);
    var released :- RequiredAmount(o.side, o.remaining, o.price);
    var w := if o.user < |tx.wallets| then tx.wallets[o.user] else Wallet(0, 0, 0, 0);
    ShiftIsApplied(w, asset, Increment(released), Decrement(released));
    r := UpdateBalances(tx, o.user, ShiftUpdate(asset, Increment(released), Decrement(released)));
  }
}
