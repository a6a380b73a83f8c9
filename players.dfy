/** One player's bookkeeping (src/main/java/Player.java): a balance in minor
    currency units and two bet counters, changed in place by deposit, withdraw
    and placeBet. The value type Account is what the settlement functions
    work on; the class Player is the mutable record the engine keeps. */
module Players {

  /** The value of a player's record. Integers are unbounded: the Java long
      balance and int counters are taken never to overflow. */
  datatype Account = Account(balance: int, totalBets: int, totalWins: int)

  /** A player's record when its id is first referenced. */
  const FRESH: Account := Account(0, 0, 0)

  /** The invariant of the counters: no more wins than bets, none negative. */
  predicate Consistent(a: Account) {
    0 <= a.totalWins <= a.totalBets
  }

  /** What withdraw tests: the stake is covered by the balance. */
  predicate Covers(a: Account, amount: int) {
    amount <= a.balance
  }

  /** The record after deposit(amount): only the balance moves, by the amount. */
  function Deposited(a: Account, amount: int): (r: Account)
    ensures r.balance - a.balance == amount
    ensures r.totalBets == a.totalBets && r.totalWins == a.totalWins
    ensures Consistent(r) <==> Consistent(a)
  {
    a.(balance := a.balance + amount)
  }

  /** The record after withdraw(amount): debited when covered, else unchanged.
      A covered withdrawal is undone by depositing the same amount, and never
      takes a non-negative balance below zero. */
  function Withdrawn(a: Account, amount: int): (r: Account)
    ensures Covers(a, amount) ==> Deposited(r, amount) == a
    ensures !Covers(a, amount) ==> r == a
    ensures a.balance >= 0 ==> r.balance >= 0
    ensures r.totalBets == a.totalBets && r.totalWins == a.totalWins
  {
    if Covers(a, amount) then a.(balance := a.balance - amount) else a
  }

  /** The record after placeBet(amount, won): one more bet, one more win iff
      won, the stake credited on a win and debited on a loss with no test of
      the balance; the counter invariant is kept. */
  function BetPlaced(a: Account, amount: int, won: bool): (r: Account)
    ensures r.totalBets == a.totalBets + 1
    ensures r.totalWins == a.totalWins + (if won then 1 else 0)
    ensures won ==> r.balance - a.balance == amount
    ensures !won ==> a.balance - r.balance == amount
    ensures Consistent(a) ==> Consistent(r)
  {
    if won then Account(a.balance + amount, a.totalBets + 1, a.totalWins + 1)
    else Account(a.balance - amount, a.totalBets + 1, a.totalWins)
  }

  /** The win rate of getWinRate: wins over bets, and 0 when there are no bets. */
  function Rate(wins: int, bets: int): (r: real)
    ensures bets == 0 ==> r == 0.0
    ensures bets != 0 ==> r * bets as real == wins as real
    ensures 0 <= wins <= bets ==> 0.0 <= r <= 1.0
  {
    if bets == 0 then 0.0 else wins as real / bets as real
  }

  class Player {
    const id: int
    var balance: int
    var totalBets: int
    var totalWins: int

    /** The record's current value. */
    function State(): Account
      reads this
    {
      Account(balance, totalBets, totalWins)
    }

    ghost predicate Valid()
      reads this
    {
      Consistent(State())
    }

    constructor (id: int)
      ensures this.id == id
      ensures balance == 0 && totalBets == 0 && totalWins == 0
      ensures State() == FRESH && Valid()
    {
      this.id := id;
      balance := 0;
      totalBets := 0;
      totalWins := 0;
    }

    method Deposit(amount: int)
      requires Valid()
      modifies this
      ensures Valid()
      ensures balance == old(balance) + amount
      ensures totalBets == old(totalBets) && totalWins == old(totalWins)
      ensures State() == Deposited(old(State()), amount)
    {
      balance := balance + amount;
    }

    method Withdraw(amount: int) returns (ok: bool)
      requires Valid()
      modifies this
      ensures Valid()
      ensures ok <==> amount <= old(balance)
      ensures balance == if ok then old(balance) - amount else old(balance)
      ensures totalBets == old(totalBets) && totalWins == old(totalWins)
      ensures State() == Withdrawn(old(State()), amount)
    {
      if amount <= balance {
        balance := balance - amount;
        return true;
      }
      return false;
    }

    method PlaceBet(amount: int, won: bool)
      requires Valid()
      modifies this
      ensures Valid()
      ensures totalBets == old(totalBets) + 1
      ensures totalWins == if won then old(totalWins) + 1 else old(totalWins)
      ensures balance == if won then old(balance) + amount else old(balance) - amount
      ensures State() == BetPlaced(old(State()), amount, won)
    {
      totalBets := totalBets + 1;
      if won {
        totalWins := totalWins + 1;
        balance := balance + amount;
      } else {
        balance := balance - amount;
      }
    }

    function WinRate(): (r: real)
      reads this
      ensures totalBets == 0 ==> r == 0.0
      ensures totalBets != 0 ==> r * totalBets as real == totalWins as real
      ensures Valid() ==> 0.0 <= r <= 1.0
    {
      Rate(totalWins, totalBets)
    }
  }
}
