/** Whole runs of the service methods on one database. */
module Exchange {
  import opened Outcomes
  import opened Decimals
  import opened Model
  import opened Engine
  import opened Market
  import opened Reachability
  import opened Wallets
  import OrdersService
  import MatchingService

  lemma SoundIsValid(s: State, openings: seq<Opening>)
    requires Sound(s, openings)
    ensures WellFormed(s.wallets, s.orders)
  {
  }

  method OpenAccountFor(tx: Database, b: Opening) returns (r: Result<()>)
    modifies tx
    ensures tx.Snapshot() == Apply(old(tx.Snapshot()), OpenAccount(b))
  {
    if DECIMAL_MAX < b.btc || DECIMAL_MAX < b.usd {
      return Err(Overflow);
    }
    tx.wallets := tx.wallets + [Wallet(b.btc, 0, b.usd, 0)];
    return Ok(());
  }

  method Execute(tx: Database, c: Command) returns (r: Result<()>)
    requires tx.Valid()
    modifies tx
    ensures tx.Snapshot() == Apply(old(tx.Snapshot()), c)
  {
    match c
    case OpenAccount(b) => r := OpenAccountFor(tx, b);
    case Create(user, side, amount, price, sequence) =>
      r := OrdersService.CreateOrder(tx, user, side, amount, price, sequence);
    case Process(id) => r := MatchingService.ProcessOrder(tx, id);
    case Cancel(user, id) => r := OrdersService.CancelOrder(tx, user, id);
    case Reject(id) => r := MatchingService.RejectOrder(tx, id);
  }

  /** The methods, called in any order on a fresh database, reach the state `Run` describes, and it is sound. */
  method Serve(commands: seq<Command>) returns (tx: Database)
    ensures fresh(tx) && tx.Valid()
    ensures tx.Snapshot() == Run(commands)
    ensures Sound(tx.Snapshot(), OpeningsOf(commands))
  {
    tx := new Database();
    var k := 0;
    while k < |commands|
      invariant fresh(tx) && k <= |commands|
      invariant tx.Valid() && tx.Snapshot() == Run(commands[..k])
    {
      var r := Execute(tx, commands[k]);
      assert commands[..k + 1][..k] == commands[..k];
      k := k + 1;
      ReachableIsSound(commands[..k]);
      SoundIsValid(tx.Snapshot(), OpeningsOf(commands[..k]));
    }
    assert commands[..k] == commands;
    ReachableIsSound(commands);
  }
}
