/** The settlement engine as the object it is (src/main/java/BettingService.java):
    a map of mutable Player records created on first reference, an append-only
    list of flagged ids and a running casino balance, changed line by line.
    The two input files become constants: the transaction lines, already split
    and parsed, and the match catalogue, keyed by match id. Every method is
    proved to do to the state what the value-level functions of Settlement
    and Casino say. */
module Service {
  import opened Players
  import opened Settlement
  import opened Casino

  class BettingService {
    /** One Player object per id. */
    var players: map<int, Player>
    /** Ids flagged as illegitimate, in order, once per refused operation. */
    var illegitimatePlayers: seq<int>
    var casinoBalance: real
    /** The transaction file, read by the player pass, the casino pass and
        the search for a player's first operation. */
    const log: seq<Line>
    /** The match file, as getMatchById finds its entries. */
    const matches: map<int, Match>

    /** The state as a value: every player's record and the flag list. */
    function Ledger(): Books
      reads this, players.Values
    {
      Books(map id | id in players :: players[id].State(), illegitimatePlayers)
    }

    /** Each Player object sits under its own id (so distinct ids mean
        distinct objects), and the state is well formed. */
    ghost predicate Valid()
      reads this, players.Values
    {
      && (forall id :: id in players ==> players[id].id == id)
      && WellFormed(Ledger())
    }

    constructor (log: seq<Line>, matches: map<int, Match>)
      ensures Valid()
      ensures players == map[] && illegitimatePlayers == [] && casinoBalance == 0.0
      ensures Ledger() == Books(map[], [])
      ensures this.log == log && this.matches == matches
    {
      players := map[];
      illegitimatePlayers := [];
      casinoBalance := 0.0;
      this.log := log;
      this.matches := matches;
    }

    /** processPlayerData's loop over the transaction file: every line in
        order until one ends the replay. */
    method ProcessPlayerData() returns (halted: bool)
      requires Valid()
      modifies this`players, this`illegitimatePlayers, players.Values
      ensures Valid()
      ensures Step(Ledger(), halted) == Replay(old(Ledger()), log, matches)
    {
      halted := false;
      var i := 0;
      while i < |log| && !halted
        invariant 0 <= i <= |log|
        invariant Valid()
        invariant Step(Ledger(), halted) == Replay(old(Ledger()), log[..i], matches)
        invariant forall q :: q in players.Values ==> q in old(players.Values) || fresh(q)
      {
        ReplayStep(old(Ledger()), log, i, matches);
        halted := ProcessPlayerDataLine(log[i]);
        i := i + 1;
      }
      if halted {
        ReplayHaltStays(old(Ledger()), log[..i], log[i..], matches);
        assert log[..i] + log[i..] == log;
      } else {
        assert log[..i] == log;
      }
    }

    method ProcessPlayerDataLine(line: Line) returns (halted: bool)
      requires Valid()
      modifies this`players, this`illegitimatePlayers, players.Values
      ensures Valid()
      ensures Step(Ledger(), halted) == ApplyLine(old(Ledger()), line, matches)
      ensures forall q :: q in players.Values ==> q in old(players.Values) || fresh(q)
    {
      if |line.tokens| < 3 {
        return false;
      }
      var id := line.player;
      ghost var before := Ledger();
      var p := ComputeIfAbsent(id);
      ghost var e := LineEffect(AccountOf(before, id), line, matches);
      ghost var after := before.accounts[id := e.account];
      ghost var created := Ledger();
      assert players.Keys == created.accounts.Keys == after.Keys;
      halted := Dispatch(p, line);
      forall k | k in players
        ensures k in after && players[k].State() == after[k]
      {
        if k != id {
          assert players[k] != p;
          assert players[k].State() == created.accounts[k];
        }
      }
      assert Ledger().accounts == after;
      assert Step(Ledger(), halted) == ApplyLine(before, line, matches);
    }

    /** players.computeIfAbsent(id, Player::new): the player's object, made
        with a fresh record when the id is new. */
    method ComputeIfAbsent(id: int) returns (p: Player)
      requires Valid()
      modifies this`players
      ensures Valid()
      ensures id in players && players[id] == p && p.Valid()
      ensures players == old(players)[id := p]
      ensures id in old(players) ==> p == old(players)[id]
      ensures id !in old(players) ==> fresh(p)
      ensures p.State() == AccountOf(old(Ledger()), id)
      ensures Ledger() == Books(old(Ledger()).accounts[id := AccountOf(old(Ledger()), id)], illegitimatePlayers)
      ensures forall q :: q in players.Values ==> q in old(players.Values) || fresh(q)
    {
      ghost var before := Ledger();
      ghost var after := before.accounts[id := AccountOf(before, id)];
      if id in players {
        p := players[id];
      } else {
        p := new Player(id);
        players := players[id := p];
      }
      forall k | k in players
        ensures players[k].State() == after[k]
      {
        if k != id {
          assert players[k] == old(players)[k];
        }
      }
      assert Ledger().accounts == after;
    }

    /** The switch of processPlayerDataLine on the operation token. */
    method Dispatch(p: Player, line: Line) returns (halted: bool)
      requires |line.tokens| >= 3
      requires p.Valid()
      modifies p, this`illegitimatePlayers
      ensures p.Valid()
      ensures var e := LineEffect(old(p.State()), line, matches);
        && p.State() == e.account
        && halted == e.halted
        && illegitimatePlayers == old(illegitimatePlayers) + (if e.flag then [p.id] else [])
    {
      match Operation(line)
      case "DEPOSIT" =>
        halted := HandleDeposit(p, line);
      case "BET" =>
        halted := HandleBet(p, line);
      case "WITHDRAW" =>
        halted := HandleWithdraw(p, line);
      case _ =>
        halted := false;
    }

    method HandleDeposit(p: Player, line: Line) returns (halted: bool)
      requires p.Valid()
      modifies p
      ensures p.Valid()
      ensures Effect(p.State(), false, halted) == DepositEffect(old(p.State()), line)
    {
      if |line.tokens| < 3 {
        return false;
      }
      if |line.tokens| < 4 {
        // the amount token is missing
        return true;
      }
      p.Deposit(line.amount);
      return false;
    }

    method HandleBet(p: Player, line: Line) returns (halted: bool)
      requires p.Valid()
      modifies p, this`illegitimatePlayers
      ensures p.Valid()
      ensures var e := BetEffect(old(p.State()), line, matches);
        && p.State() == e.account
        && halted == e.halted
        && illegitimatePlayers == old(illegitimatePlayers) + (if e.flag then [p.id] else [])
    {
      if |line.tokens| < 5 {
        return false;
      }
      var matchId, amount, side := line.matchId, line.amount, Side(line);
      if amount > p.balance {
        illegitimatePlayers := illegitimatePlayers + [p.id];
        return false;
      }
      var valid := p.Withdraw(amount);
      // the stake was just found covered, so the second test cannot refuse it
      assert valid;
      halted := ProcessBet(p, matchId, amount, side);
    }

    method HandleWithdraw(p: Player, line: Line) returns (halted: bool)
      requires p.Valid()
      modifies p, this`illegitimatePlayers
      ensures p.Valid()
      ensures var e := WithdrawEffect(old(p.State()), line);
        && p.State() == e.account
        && halted == e.halted
        && illegitimatePlayers == old(illegitimatePlayers) + (if e.flag then [p.id] else [])
    {
      if |line.tokens| < 4 {
        // the amount token is missing
        return true;
      }
      var amount := line.amount;
      if amount > p.balance {
        illegitimatePlayers := illegitimatePlayers + [p.id];
      } else {
        var _ := p.Withdraw(amount);
      }
      return false;
    }

    /** processBet, with getMatchById as a lookup in the match catalogue. */
    method ProcessBet(p: Player, matchId: int, amount: int, side: string) returns (halted: bool)
      requires p.Valid()
      modifies p
      ensures p.Valid()
      ensures Effect(p.State(), false, halted) == Settle(old(p.State()), matchId, amount, side, matches)
    {
      if matchId in matches {
        var m := matches[matchId];
        if side == "" {
          // charAt(0) of an empty side
          return true;
        }
        p.PlaceBet(amount, m.result == side[0]);
      }
      return false;
    }

    /** calculateCasinoBalance: one pass over the transaction file for match m. */
    method CalculateCasinoBalance(m: Match)
      requires ReadableLog(log, m, illegitimatePlayers, players.Keys)
      modifies this`casinoBalance
      ensures casinoBalance == old(casinoBalance) + CasinoDelta(log, m, illegitimatePlayers, players.Keys)
    {
      var i := 0;
      while i < |log|
        invariant 0 <= i <= |log|
        invariant ReadableLog(log[..i], m, illegitimatePlayers, players.Keys)
        invariant casinoBalance == old(casinoBalance) + CasinoDelta(log[..i], m, illegitimatePlayers, players.Keys)
      {
        var line := log[i];
        assert log[..i + 1][..i] == log[..i];
        assert log[..i + 1][i] == line;
        ghost var before := casinoBalance;
        ghost var c := Contribution(line, m, illegitimatePlayers, players.Keys);
        if line.tokens[1] == "BET" && |line.tokens| >= 5 {
          if line.player !in illegitimatePlayers {
            if line.player in players && m.id == line.matchId {
              var side := line.tokens[4];
              if m.result == side[0] {
                casinoBalance := casinoBalance + line.amount as real * Coefficient(m, side);
              } else {
                casinoBalance := casinoBalance - line.amount as real;
              }
            }
          }
        }
        assert casinoBalance == before + c;
        i := i + 1;
      }
      assert log[..i] == log;
    }
  }
}
