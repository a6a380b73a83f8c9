/** The player pass of the settlement engine (src/main/java/BettingService.java,
    processPlayerDataLine and the handlers it dispatches to), as functions on
    values. The class in service.dfy performs the same pass in place and is
    proved to agree with ApplyLine and Replay. */
module Settlement {
  import opened Players

  /** A match from the match file. The payout rates are exact reals. */
  datatype Match = Match(id: int, rateA: real, rateB: real, result: char)

  /** One transaction line, already split at its commas. tokens holds the raw
      texts: tokens[1] is the operation and tokens[4] the side of a bet.
      player, matchId and amount hold tokens[0], tokens[2] and tokens[3]
      already parsed; they mean nothing when the line is too short to have
      that token. */
  datatype Line = Line(tokens: seq<string>, player: int, matchId: int, amount: int)

  function Operation(line: Line): string
    requires |line.tokens| >= 2
  {
    line.tokens[1]
  }

  function Side(line: Line): string
    requires |line.tokens| >= 5
  {
    line.tokens[4]
  }

  /** What one handler does to the player it was given: the player's new record,
      whether the player's id is appended to the flag list, and whether the
      handler ended the replay by reading past the end of the line's tokens
      or of the side's characters. */
  datatype Effect = Effect(account: Account, flag: bool, halted: bool)

  /** The engine's state: every player's record by id, and the ids flagged as
      illegitimate, in the order they were flagged, one entry per flagging. */
  datatype Books = Books(accounts: map<int, Account>, flagged: seq<int>)

  /** The state after a line, and whether the replay stops there. */
  datatype Step = Step(books: Books, halted: bool)

  /** The state every flagged id and every record satisfies. */
  predicate WellFormed(b: Books) {
    && (forall id :: id in b.accounts ==> Consistent(b.accounts[id]))
    && (forall i :: 0 <= i < |b.flagged| ==> b.flagged[i] in b.accounts)
  }

  /** The record computeIfAbsent yields: the existing one, or a fresh one. */
  function AccountOf(b: Books, id: int): Account {
    if id in b.accounts then b.accounts[id] else FRESH
  }

  /** handleDeposit: a deposit is never refused and never flags. A line of
      exactly three tokens passes the handler's own length test and then
      reads the missing fourth token, which ends the replay. */
  function DepositEffect(a: Account, line: Line): (e: Effect)
    ensures !e.flag
    ensures e.halted <==> |line.tokens| == 3
    ensures |line.tokens| < 4 ==> e.account == a
    ensures |line.tokens| >= 4 ==> e.account.balance == a.balance + line.amount
    ensures e.account.totalBets == a.totalBets && e.account.totalWins == a.totalWins
  {
    if |line.tokens| < 3 then Effect(a, false, false)
    else if |line.tokens| < 4 then Effect(a, false, true)
    else Effect(Deposited(a, line.amount), false, false)
  }

  /** handleWithdraw: an amount above the balance flags the player and moves
      nothing; any other amount is debited. The handler has no length test of
      its own, so a line without a fourth token ends the replay. */
  function WithdrawEffect(a: Account, line: Line): (e: Effect)
    ensures |line.tokens| < 4 ==> e == Effect(a, false, true)
    ensures |line.tokens| >= 4 ==> !e.halted && (e.flag <==> line.amount > a.balance)
    ensures e.flag ==> e.account == a
    ensures |line.tokens| >= 4 && !e.flag ==> e.account.balance == a.balance - line.amount
    ensures e.account.totalBets == a.totalBets && e.account.totalWins == a.totalWins
  {
    if |line.tokens| < 4 then Effect(a, false, true)
    else if line.amount > a.balance then Effect(a, true, false)
    else Effect(Withdrawn(a, line.amount), false, false)
  }

  /** processBet: with the stake already withdrawn, settle it against the match
      catalogue. An unknown match leaves the stake forfeited; a known match
      places the bet, won when the side's first character is the result. The
      first character of an empty side does not exist, which ends the replay. */
  function Settle(a: Account, matchId: int, amount: int, side: string, matches: map<int, Match>): (e: Effect)
    ensures !e.flag
    ensures e.halted <==> matchId in matches && side == ""
    ensures matchId !in matches || side == "" ==> e.account == a
    ensures matchId in matches && side != "" ==>
      e.account == BetPlaced(a, amount, side[0] == matches[matchId].result)
  {
    if matchId !in matches then Effect(a, false, false)
    else if side == "" then Effect(a, false, true)
    else Effect(BetPlaced(a, amount, matches[matchId].result == side[0]), false, false)
  }

  /** The bet of a line that has all five tokens and whose stake is covered. */
  predicate Staked(a: Account, line: Line) {
    |line.tokens| >= 5 && line.amount <= a.balance
  }

  /** handleBet: the stake is first withdrawn and then settled, so a winning
      bet leaves the balance where it was and a losing bet costs the stake
      twice. An uncovered stake flags the player and moves nothing; a line
      with fewer than five tokens does nothing. */
  function BetEffect(a: Account, line: Line, matches: map<int, Match>): (e: Effect)
    ensures |line.tokens| < 5 ==> e == Effect(a, false, false)
    ensures |line.tokens| >= 5 ==> (e.flag <==> line.amount > a.balance)
    ensures e.flag ==> e.account == a && !e.halted
    ensures Staked(a, line) && line.matchId !in matches ==>
      e == Effect(a.(balance := a.balance - line.amount), false, false)
    ensures Staked(a, line) && line.matchId in matches && Side(line) == "" ==>
      e == Effect(a.(balance := a.balance - line.amount), false, true)
    ensures Staked(a, line) && line.matchId in matches && Side(line) != "" &&
            Side(line)[0] == matches[line.matchId].result ==>
      e == Effect(Account(a.balance, a.totalBets + 1, a.totalWins + 1), false, false)
    ensures Staked(a, line) && line.matchId in matches && Side(line) != "" &&
            Side(line)[0] != matches[line.matchId].result ==>
      e == Effect(Account(a.balance - 2 * line.amount, a.totalBets + 1, a.totalWins), false, false)
    ensures Consistent(a) ==> Consistent(e.account)
  {
    if |line.tokens| < 5 then Effect(a, false, false)
    else if line.amount > a.balance then Effect(a, true, false)
    else if Covers(a, line.amount) then
      Settle(Withdrawn(a, line.amount), line.matchId, line.amount, Side(line), matches)
    else Effect(a, true, false)
  }

  /** The switch of processPlayerDataLine on the operation token. */
  function LineEffect(a: Account, line: Line, matches: map<int, Match>): (e: Effect)
    requires |line.tokens| >= 3
    ensures Operation(line) !in {"DEPOSIT", "BET", "WITHDRAW"} ==> e == Effect(a, false, false)
    ensures Operation(line) == "DEPOSIT" ==> !e.flag
    ensures Consistent(a) ==> Consistent(e.account)
  {
    match Operation(line)
    case "DEPOSIT" => DepositEffect(a, line)
    case "BET" => BetEffect(a, line, matches)
    case "WITHDRAW" => WithdrawEffect(a, line)
    case _ => Effect(a, false, false)
  }

  /** processPlayerDataLine: a line of fewer than three tokens is skipped;
      any other line creates its player's record if absent, whatever its
      operation, and then applies the operation to that record alone. */
  function ApplyLine(b: Books, line: Line, matches: map<int, Match>): (r: Step)
    ensures |line.tokens| < 3 ==> r == Step(b, false)
    ensures |line.tokens| >= 3 ==> r.books.accounts.Keys == b.accounts.Keys + {line.player}
    ensures |line.tokens| >= 3 && line.player !in b.accounts ==>
      r.books.accounts[line.player] == LineEffect(FRESH, line, matches).account
    ensures b.accounts.Keys <= r.books.accounts.Keys
    ensures forall id :: id in b.accounts && id != line.player ==> r.books.accounts[id] == b.accounts[id]
    ensures r.books.flagged == b.flagged || r.books.flagged == b.flagged + [line.player]
    ensures |line.tokens| >= 3 && Operation(line) !in {"DEPOSIT", "BET", "WITHDRAW"} ==>
      r == Step(Books(b.accounts[line.player := AccountOf(b, line.player)], b.flagged), false)
    ensures WellFormed(b) ==> WellFormed(r.books)
  {
    if |line.tokens| < 3 then Step(b, false)
    else
      var id := line.player;
      var e := LineEffect(AccountOf(b, id), line, matches);
      Step(Books(b.accounts[id := e.account], if e.flag then b.flagged + [id] else b.flagged), e.halted)
  }

  /** processPlayerData's loop: the lines in order, stopping after the first
      line that ends the replay. */
  function Replay(b: Books, lines: seq<Line>, matches: map<int, Match>): (r: Step)
    ensures |r.books.flagged| <= |b.flagged| + |lines|
    decreases |lines|
  {
    if lines == [] then Step(b, false)
    else
      var s := Replay(b, lines[..|lines| - 1], matches);
      if s.halted then s else ApplyLine(s.books, lines[|lines| - 1], matches)
  }

  /** One more line extends a replay that has not stopped. */
  lemma ReplayStep(b: Books, lines: seq<Line>, i: nat, matches: map<int, Match>)
    requires i < |lines|
    ensures Replay(b, lines[..i + 1], matches) ==
      var s := Replay(b, lines[..i], matches);
      if s.halted then s else ApplyLine(s.books, lines[i], matches)
  {
    assert lines[..i + 1][..i] == lines[..i];
  }

  /** Once the replay stops, later lines change nothing. */
  lemma {:induction false} ReplayHaltStays(b: Books, lines: seq<Line>, more: seq<Line>, matches: map<int, Match>)
    requires Replay(b, lines, matches).halted
    ensures Replay(b, lines + more, matches) == Replay(b, lines, matches)
    decreases |more|
  {
    if more == [] {
      assert lines + more == lines;
    } else {
      var front := more[..|more| - 1];
      assert (lines + more)[..|lines + more| - 1] == lines + front;
      ReplayHaltStays(b, lines, front, matches);
    }
  }

  /** The flag list only grows, and only by appending. */
  lemma {:induction false} ReplayFlagsGrow(b: Books, lines: seq<Line>, matches: map<int, Match>)
    ensures b.flagged <= Replay(b, lines, matches).books.flagged
    decreases |lines|
  {
    if lines != [] {
      ReplayFlagsGrow(b, lines[..|lines| - 1], matches);
    }
  }

  /** Records are never removed. */
  lemma {:induction false} ReplayKeepsPlayers(b: Books, lines: seq<Line>, matches: map<int, Match>)
    ensures b.accounts.Keys <= Replay(b, lines, matches).books.accounts.Keys
    decreases |lines|
  {
    if lines != [] {
      ReplayKeepsPlayers(b, lines[..|lines| - 1], matches);
    }
  }

  /** Every record keeps 0 <= totalWins <= totalBets, and every flagged id has a
      record, whatever the lines. */
  lemma {:induction false} ReplayKeepsWellFormed(b: Books, lines: seq<Line>, matches: map<int, Match>)
    requires WellFormed(b)
    ensures WellFormed(Replay(b, lines, matches).books)
    decreases |lines|
  {
    if lines != [] {
      ReplayKeepsWellFormed(b, lines[..|lines| - 1], matches);
    }
  }

  /** A line acts on a player only when it names that player and has at least
      three tokens. */
  predicate Touches(line: Line, id: int) {
    |line.tokens| >= 3 && line.player == id
  }

  /** A player no line touches keeps its record (or its absence) and its
      flags, whatever happens to the others. */
  lemma {:induction false} ReplayLeavesOthers(b: Books, lines: seq<Line>, id: int, matches: map<int, Match>)
    requires forall i :: 0 <= i < |lines| ==> !Touches(lines[i], id)
    ensures var r := Replay(b, lines, matches).books;
      && (id in r.accounts <==> id in b.accounts)
      && (id in b.accounts ==> r.accounts[id] == b.accounts[id])
      && multiset(r.flagged)[id] == multiset(b.flagged)[id]
    decreases |lines|
  {
    if lines != [] {
      var front := lines[..|lines| - 1];
      ReplayLeavesOthers(b, front, id, matches);
      var s := Replay(b, front, matches);
      if !s.halted {
        var r := ApplyLine(s.books, lines[|lines| - 1], matches);
        assert r.books.flagged == s.books.flagged || r.books.flagged == s.books.flagged + [lines[|lines| - 1].player];
      }
    }
  }

  /** Flagging does not freeze a player: the records after a replay, and where
      it stops, do not depend on the flag list it started from. */
  lemma {:induction false} ReplayIgnoresFlags(b: Books, flagged: seq<int>, lines: seq<Line>, matches: map<int, Match>)
    ensures Replay(Books(b.accounts, flagged), lines, matches).books.accounts == Replay(b, lines, matches).books.accounts
    ensures Replay(Books(b.accounts, flagged), lines, matches).halted == Replay(b, lines, matches).halted
    decreases |lines|
  {
    if lines != [] {
      ReplayIgnoresFlags(b, flagged, lines[..|lines| - 1], matches);
    }
  }
}
