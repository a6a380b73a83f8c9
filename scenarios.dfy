/** Worked runs of the settlement engine on small logs, stated as lemmas about
    Replay, CasinoDelta and FirstOperation. */
module Scenarios {
  import opened Players
  import opened Settlement
  import opened Casino
  import opened Report

  const P: int := 7
  const M: int := 42
  const MATCHES: map<int, Match> := map[M := Match(M, 2.0, 3.0, 'A')]
  const EMPTY: Books := Books(map[], [])

  function DepositLine(amount: int, text: string): Line {
    Line(["7", "DEPOSIT", "", text], P, 0, amount)
  }

  function WithdrawLine(amount: int, text: string): Line {
    Line(["7", "WITHDRAW", "", text], P, 0, amount)
  }

  function BetLine(amount: int, text: string, side: string): Line {
    Line(["7", "BET", "42", text, side], P, M, amount)
  }

  /** Deposit 100, then bet 50 on the winning side "A" at rate 2.0: the balance
      is back at 100 with one bet won, and the casino pass for the match adds
      50 * 2.0. */
  lemma WinningBetScenario()
    ensures var log := [DepositLine(100, "100"), BetLine(50, "50", "A")];
      && Replay(EMPTY, log, MATCHES) == Step(Books(map[P := Account(100, 1, 1)], []), false)
      && ReadableLog(log, MATCHES[M], [], {P})
      && CasinoDelta(log, MATCHES[M], [], {P}) == 100.0
  {
    var log := [DepositLine(100, "100"), BetLine(50, "50", "A")];
    assert log[..1] == [log[0]];
    assert log[..1][..0] == [];
    assert Replay(EMPTY, log[..1], MATCHES) == ApplyLine(EMPTY, log[0], MATCHES);
    assert LineEffect(FRESH, log[0], MATCHES) == Effect(Account(100, 0, 0), false, false);
    assert ReadableLog(log[..1], MATCHES[M], [], {P});
    assert CasinoDelta(log[..1], MATCHES[M], [], {P}) == 0.0;
    assert Contribution(log[1], MATCHES[M], [], {P}) == 100.0;
  }

  /** Deposit 100, then lose a bet of 30: the stake is taken by withdraw and
      again by placeBet, leaving 40. */
  lemma LosingBetScenario()
    ensures var log := [DepositLine(100, "100"), BetLine(30, "30", "B")];
      Replay(EMPTY, log, MATCHES) == Step(Books(map[P := Account(40, 1, 0)], []), false)
  {
    var log := [DepositLine(100, "100"), BetLine(30, "30", "B")];
    assert log[..1] == [log[0]];
    assert log[..1][..0] == [];
    assert Replay(EMPTY, log[..1], MATCHES) == ApplyLine(EMPTY, log[0], MATCHES);
    assert LineEffect(FRESH, log[0], MATCHES) == Effect(Account(100, 0, 0), false, false);
  }

  /** A line of two tokens is skipped, and the line after it is applied. */
  lemma ShortLineScenario()
    ensures var log := [Line(["7", "DEPOSIT"], P, 0, 0), DepositLine(10, "10")];
      Replay(EMPTY, log, MATCHES) == Step(Books(map[P := Account(10, 0, 0)], []), false)
  {
    var log := [Line(["7", "DEPOSIT"], P, 0, 0), DepositLine(10, "10")];
    assert log[..1] == [log[0]];
    assert log[..1][..0] == [];
    assert Replay(EMPTY, log[..1], MATCHES) == Step(EMPTY, false);
  }

  /** With nothing deposited, a withdrawal of 10 is refused and flags the
      player; the report then shows the player's first line, which is that
      withdrawal. A later deposit is still applied. */
  lemma RefusedWithdrawScenario()
    ensures var log := [WithdrawLine(10, "10"), DepositLine(5, "5")];
      && Replay(EMPTY, log, MATCHES) == Step(Books(map[P := Account(5, 0, 0)], [P]), false)
      && FirstOperation(log, P) == Found(["7", "WITHDRAW", "", "10"])
  {
    var log := [WithdrawLine(10, "10"), DepositLine(5, "5")];
    assert log[..1] == [log[0]];
    assert log[..1][..0] == [];
    assert Replay(EMPTY, log[..1], MATCHES) == Step(Books(map[P := FRESH], [P]), false);
  }

  /** The report's entry for a flagged player is that player's first line, not
      the line that was refused: here a deposit, followed by the withdrawal
      that caused the flag. */
  lemma ReportedOperationIsNotTheOffence()
    ensures var log := [DepositLine(5, "5"), WithdrawLine(10, "10")];
      && Replay(EMPTY, log, MATCHES).books.flagged == [P]
      && FirstOperation(log, P) == Found(["7", "DEPOSIT", "", "5"])
  {
    var log := [DepositLine(5, "5"), WithdrawLine(10, "10")];
    assert log[..1] == [log[0]];
    assert log[..1][..0] == [];
    assert Replay(EMPTY, log[..1], MATCHES) == Step(Books(map[P := Account(5, 0, 0)], []), false);
  }
}
