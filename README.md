# Betting settlement engine, in Dafny

This project models the settlement engine of a small betting back office. The engine replays a ledger of player transactions (DEPOSIT, WITHDRAW, BET) in file order. It keeps:

- a map of per-player records, each created on first reference;
- an append-only list of ids flagged for illegitimate operations;
- a running casino balance.

A separate pass per match adds each counted bet's outcome to the casino balance. The report lists:

- the never-flagged players, ascending by id, with balance and win rate;
- the flagged ids, ascending and once per flagging, each with the first four tokens of the player's first line in the log.

Layout, one module per file:

- `players.dfy`, module `Players` (from `Player.java`). The class `Player` has its fields `balance`, `totalBets` and `totalWins`, changed in place. `Account` is the value of one record, and `Deposited`, `Withdrawn` and `BetPlaced` are what the three methods do to it.
- `settlement.dfy`, module `Settlement` (the player pass of `BettingService.java`) holds the player pass as functions on values:
  - one function per handler (`DepositEffect`, `WithdrawEffect`, `BetEffect`, `Settle` for `processBet`);
  - `ApplyLine` for `processPlayerDataLine`, and `Replay` for the loop over the file;
  - lemmas about whole replays.
- `casino.dfy`, module `Casino`: `calculateCasinoBalance` as the fold `CasinoDelta`, `getWinningCoefficient` as `Coefficient`, and lemmas about the fold.
- `report.dfy`, module `Report`: the selections behind the two player sections, and `getFirstIllegalOperation` as `FirstOperation`.
- `service.dfy`, module `Service`: the class `BettingService`, with fields `players: map<int, Player>`, `illegitimatePlayers: seq<int>` and `casinoBalance: real`.
  - The two input files are constants: `log`, the transaction lines already split and parsed, and `matches`, the match file as a map from match id. `getMatchById` becomes a map lookup.
  - Each method changes the objects in place. Each is proved to leave the state that `ApplyLine`, `Replay` or `CasinoDelta` describes, through `Ledger()`, the state as a value.
- `sorting.dfy`, module `Sorting`: the two orderings the report uses.
- `scenarios.dfy`, module `Scenarios`: small logs replayed end to end.

A transaction line is a `Line`: the raw tokens plus the already-parsed `player` (token 0), `matchId` (token 2) and `amount` (token 3). Token 1 is the operation and token 4 the side of a bet. Ids are integers, so `int` order stands for `UUID` order.

Behaviour of the code that the model keeps, where a reader might expect otherwise:

- A losing bet takes the stake twice. `withdraw` debits it (BettingService.java:74) and `placeBet` debits it again (Player.java:38), so a balance can go negative. A winning bet leaves the balance where it was. The model follows the code.
- A winning bet ADDS stake × coefficient to the casino balance (BettingService.java:188), so a player's win raises it. The model follows the code.
- Flagging never blocks a player. `processPlayerDataLine` does not consult the flag list, so later lines of a flagged player still apply (`ReplayIgnoresFlags`).
- The report shows a flagged player's first line of the log, not the line that caused the flag (`ReportedOperationIsNotTheOffence`).
- A DEPOSIT or WITHDRAW line of exactly three tokens passes the length tests and then reads the missing fourth token. `handleDeposit` tests for fewer than 3 tokens where 4 are needed. Likewise, a BET on a known match whose side token is empty reads a first character that does not exist. In the code these throw and the exception escapes the whole run. The model makes each an explicit `halted` result, and the replay stops at that line. The player named by the line has already been created at that point. Such lines are not skipped; the model follows the code.
- The second withdrawal test in `handleBet` (BettingService.java:74-79) can never refuse, because the line just before tested the same condition. `HandleBet` proves this with `assert valid` where the code would flag the player.

## Model

| member | source | states |
|---|---|---|
| `Players.Rate` | src/main/java/Player.java:42-44 | Win rate is 0 with no bets; otherwise rate × bets = wins; within [0, 1] whenever 0 ≤ wins ≤ bets |
| `Players.Deposited` | src/main/java/Player.java:20-22 | The record after deposit, defined by its body: only the balance moves, by exactly the amount, and the counter invariant holds after iff before; the method is stated by `Players.Player.Deposit` |
| `Players.Withdrawn` | src/main/java/Player.java:24-30 | The record after withdraw, defined by its body: a covered withdrawal is undone by depositing the same amount, an uncovered one changes nothing, a non-negative balance stays non-negative, counters unchanged; the method is stated by `Players.Player.Withdraw` |
| `Players.BetPlaced` | src/main/java/Player.java:32-40 | The record after placeBet, defined by its body: one more bet, one more win iff won, the stake credited on a win and debited on a loss with no balance test, counter invariant kept; the method is stated by `Players.Player.PlaceBet` |
| `Players.Player.constructor` | src/main/java/Player.java:13-18 | A new player has the given id, balance 0, totalBets 0 and totalWins 0, and satisfies the counter invariant |
| `Players.Player.Deposit` | src/main/java/Player.java:20-22 | Balance grows by exactly the amount; both counters unchanged; 0 ≤ totalWins ≤ totalBets kept |
| `Players.Player.Withdraw` | src/main/java/Player.java:24-30 | Returns true iff amount ≤ balance; on true the balance drops by the amount, on false nothing changes; counters and invariant kept |
| `Players.Player.PlaceBet` | src/main/java/Player.java:32-40 | totalBets always +1; totalWins +1 iff won; balance +amount when won and −amount when lost, with no guard; invariant kept |
| `Players.Player.WinRate` | src/main/java/Player.java:42-44 | 0 when totalBets = 0, else rate × totalBets = totalWins; in [0, 1] under the invariant |
| `Sorting.SortedSet` | src/main/java/BettingService.java:126-128 | The ids of a set, strictly ascending, each exactly once |
| `Sorting.Sort` | src/main/java/BettingService.java:134-135 | An ascending permutation of the flag list, repeats kept |
| `Settlement.DepositEffect` | src/main/java/BettingService.java:48-56 | DEPOSIT never flags; with 4+ tokens the balance grows by exactly the amount; with exactly 3 tokens the replay halts; counters never change |
| `Settlement.WithdrawEffect` | src/main/java/BettingService.java:82-92 | Amount > balance: record unchanged and the id flagged; otherwise balance drops by exactly the amount and no flag; under 4 tokens the replay halts |
| `Settlement.Settle` | src/main/java/BettingService.java:160-166 | Unknown match: record unchanged; known match: placeBet with won iff the side's first character is the result; empty side on a known match halts |
| `Settlement.BetEffect` | src/main/java/BettingService.java:58-80 | Under 5 tokens nothing; amount > balance: flagged, record unchanged; else unknown match −amount, win net 0 with both counters +1, loss −2×amount with only totalBets +1; counter invariant kept |
| `Settlement.LineEffect` | src/main/java/BettingService.java:39-45 | An unsupported operation changes nothing; DEPOSIT never flags; counter invariant kept |
| `Settlement.ApplyLine` | src/main/java/BettingService.java:29-46 | Under 3 tokens the state is unchanged. Otherwise the player is created if absent, even for an unsupported operation or a short BET. Other players untouched. Flags only appended by one id. Well-formedness kept |
| `Settlement.Replay` | src/main/java/BettingService.java:18-26 | The loop over the file, defined by its body (lines in order, stopping after a line that halts); each line flags at most once, so the flag list grows by at most the number of lines; its other properties are the `Settlement.Replay*` lemmas |
| `Settlement.ReplayStep` | src/main/java/BettingService.java:20-21 | One more line extends a replay that has not halted by exactly ApplyLine |
| `Settlement.ReplayHaltStays` | src/main/java/BettingService.java:18-26 | After a line that ends the replay, further lines change nothing |
| `Settlement.ReplayFlagsGrow` | src/main/java/BettingService.java:58-92 | The flag list before a replay is a prefix of the list after it |
| `Settlement.ReplayKeepsPlayers` | src/main/java/BettingService.java:36-37 | No player record is ever removed |
| `Settlement.ReplayKeepsWellFormed` | src/main/java/BettingService.java:36-92 | Every record keeps 0 ≤ totalWins ≤ totalBets and every flagged id has a record, over any log |
| `Settlement.ReplayLeavesOthers` | src/main/java/BettingService.java:36-45 | A player no line names keeps its record or its absence and its number of flags |
| `Settlement.ReplayIgnoresFlags` | src/main/java/BettingService.java:36-45 | The records after a replay, and whether it halts, do not depend on the flag list: flagging does not block later operations |
| `Casino.Coefficient` | src/main/java/BettingService.java:196-204 | getWinningCoefficient, defined by its body: always rateA, rateB or 0, and 0 for any side that is not exactly one character, even one whose first character won; its per-line use is stated by `Casino.SingleLine` |
| `Casino.Contribution` | src/main/java/BettingService.java:173-192 | One iteration of the pass, defined by its body: only a counted line moves the balance; signs stated by `Casino.ContributionSign`, exact values by `Casino.SingleLine` |
| `Casino.ContributionSign` | src/main/java/BettingService.java:185-191 | With a non-negative stake a player's loss never raises the casino balance; with non-negative rates a player's win never lowers it, and no line takes more than its stake off the balance |
| `Casino.CasinoDelta` | src/main/java/BettingService.java:170-194 | The loop of calculateCasinoBalance as a fold, defined by its body: a log without a counted line adds exactly 0; its other properties are the `Casino.CasinoDelta*` lemmas and `Casino.NoPlayersNoDelta` |
| `Casino.SingleLine` | src/main/java/BettingService.java:168-204 | A counted winning line adds amount × rateA for "A", amount × rateB for "B", 0 for any other side; a counted losing line subtracts the amount; an uncounted line adds nothing |
| `Casino.CasinoDeltaAppend` | src/main/java/BettingService.java:168-195 | The pass over two stretches of the log is the sum of the two passes |
| `Casino.CasinoDeltaFilter` | src/main/java/BettingService.java:170-194 | Dropping lines the pass does not count leaves its total unchanged |
| `Casino.CasinoDeltaOfGroup` | src/main/java/BettingService.java:168-183 | The pass over only the lines of the match gives the same total as the pass over the whole log |
| `Casino.NoPlayersNoDelta` | src/main/java/BettingService.java:182-183 | With no player known, as before any player pass, the casino pass adds exactly 0 whatever the log |
| `Casino.CasinoDeltaSkipsFlagged` | src/main/java/BettingService.java:178-180 | Removing every line of a flagged player leaves the total unchanged |
| `Report.LegitimateIds` | src/main/java/BettingService.java:126-128 | Strictly ascending; an id is listed iff it has a record and is not in the flag list |
| `Report.LegitimateStandings` | src/main/java/BettingService.java:125-131 | Exactly the never-flagged players, ascending by id, each with its balance and Rate of its counters, the rate within [0, 1] |
| `Report.FirstOperation` | src/main/java/BettingService.java:145-154 | NotFound iff no line names the player; otherwise the first four tokens of the first line naming the player, or Truncated when that line is shorter |
| `Report.IllegitimateReport` | src/main/java/BettingService.java:133-143 | Ids ascending and a permutation of the flag list, so a player flagged k times appears k times; each entry carries FirstOperation; every id has a record |
| `Service.BettingService.constructor` | src/main/java/BettingService.java:6-8 | Empty player map, empty flag list, casino balance 0, so the ledger holds no record and no flag |
| `Service.BettingService.ProcessPlayerData` | src/main/java/BettingService.java:18-26 | The state after the loop is Replay of the whole log from the state before; invariants kept |
| `Service.BettingService.ProcessPlayerDataLine` | src/main/java/BettingService.java:29-46 | The new state is ApplyLine of the old state and the line; invariants kept |
| `Service.BettingService.ComputeIfAbsent` | src/main/java/BettingService.java:37 | Returns the object already under the id, the same object, or else a newly allocated one with a fresh record now stored under the id; nothing else changes |
| `Service.BettingService.Dispatch` | src/main/java/BettingService.java:39-45 | The player's new record, the flag list and the halt follow LineEffect |
| `Service.BettingService.HandleDeposit` | src/main/java/BettingService.java:48-56 | The player's record and the halt follow DepositEffect |
| `Service.BettingService.HandleBet` | src/main/java/BettingService.java:58-80 | The record, the flag list and the halt follow BetEffect; the second withdrawal test never refuses |
| `Service.BettingService.HandleWithdraw` | src/main/java/BettingService.java:82-92 | The record, the flag list and the halt follow WithdrawEffect |
| `Service.BettingService.ProcessBet` | src/main/java/BettingService.java:160-166 | The record and the halt follow Settle |
| `Service.BettingService.CalculateCasinoBalance` | src/main/java/BettingService.java:168-195 | The casino balance grows by exactly CasinoDelta of the log for the match, against the current flags and known players |
| `Scenarios.WinningBetScenario` | src/main/java/BettingService.java:58-80 | Deposit 100, win a bet of 50 on "A" at rate 2.0: record (100, 1, 1), no flag, casino +100 |
| `Scenarios.LosingBetScenario` | src/main/java/Player.java:32-40 | Deposit 100, lose a bet of 30: balance 40, one bet, no win |
| `Scenarios.ShortLineScenario` | src/main/java/BettingService.java:29-34 | A two-token line is skipped and the next line applies |
| `Scenarios.RefusedWithdrawScenario` | src/main/java/BettingService.java:82-92 | Withdraw 10 from nothing: flagged, balance 0; a later deposit still applies |
| `Scenarios.ReportedOperationIsNotTheOffence` | src/main/java/BettingService.java:145-154 | A deposit followed by a refused withdrawal: the report shows the deposit |

## Left out

- File I/O is not modelled: the existence check and reader loop of `processPlayerData`, `processMatchData`, `calculateResults`, `getTransactionLines`, and the file scan of `getMatchById`. The transaction file is the constant `log`, and the match file is the map `matches`. With that map, duplicate match ids in the file, where the first one would be found, are not represented.
- `processMatchData`'s loop, which runs `calculateCasinoBalance` once per match line, is not modelled; one run for one match is.
- The order of the passes is not modelled. Nothing in BettingService.java calls `processMatchData`. Its callers, and any outside caller of the public `processPlayerData`, are not among the modelled files. Inside BettingService.java, `calculateResults` runs a player pass (BettingService.java:114) and writes the casino balance right after (:119). A casino pass run on an empty player map adds nothing (`NoPlayersNoDelta`). A pass run after it comes too late for the written report. `CalculateCasinoBalance` reads whatever flag list and player map exist when it runs.
- Strings are sequences of Unicode scalar values. Java's `charAt(0)` returns a UTF-16 code unit. The comparison of the side's and the result's first characters (BettingService.java:102, :164, :185, :215) therefore differs for characters outside the Basic Multilingual Plane: two different emoji share a high surrogate and compare equal in Java. Comparing by code unit is not modelled.
- Output formatting is not modelled: `PrintWriter`, `printf("%s %d %.2f%n")`, rounding the rate to two decimals, the blank separator lines and the casino balance line. Only which rows each section holds, in what order and with what values, is modelled.
- Parsing is not modelled: `String.split`, `UUID.fromString`, `Integer.parseInt` and `Double.parseDouble`. Lines arrive split, with their id, match id and amount parsed. A `NumberFormatException` or an unparseable id, which would end the replay, cannot occur in the model.
- `Service.BettingService.CalculateCasinoBalance`: a line of the transaction file with fewer than two tokens, or an empty side on a counted BET, makes the code throw. The model requires instead that no such line reaches the pass (`ReadableLog`).
- `Report.FirstOperation`: when the first line naming the player has fewer than four tokens, the code throws. The model returns `Truncated`.
- Exceptions are modelled only as the replay stopping (`halted`). Java's exception hierarchy, and the fact that the uncaught exceptions also prevent the report from being written, are not modelled.
- Floating point is not modelled: rates and the casino balance are exact reals. The narrowing of `casinoBalance += betAmount * coefficient` back to `int` is not modelled.
- Integers are unbounded. Java `int`/`long` overflow of balances, amounts and counters is not modelled.
- `Match.java` is the datatype `Settlement.Match`; its Lombok getters and setters are not modelled.
- The public setters that Lombok's `@Setter` generates for `Player` (Player.java:5-7) are not modelled: `setId`, `setBalance`, `setTotalBets` and `setTotalWins`. Nothing in BettingService.java calls them. They could break 0 ≤ totalWins ≤ totalBets, and `setId` could change the id, which the model holds as a `const`.
- Logging to `System.err` and `printStackTrace` is not modelled.
