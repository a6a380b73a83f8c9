/** The casino pass of the settlement engine (src/main/java/BettingService.java,
    calculateCasinoBalance and getWinningCoefficient): for one match, a fold
    over the transaction lines that adds what each counted bet is worth to
    the casino balance. The fold reads whatever flag list and set of known
    players exist when it runs; it does not replay the ledger itself. */
module Casino {
  import opened Settlement

  /** getWinningCoefficient: rateA for the side "A", rateB for the side "B",
      and nothing for any other side, even one whose first character won. */
  function Coefficient(m: Match, side: string): (r: real)
    ensures r == m.rateA || r == m.rateB || r == 0.0
    ensures |side| != 1 ==> r == 0.0
  {
    if side == "A" then m.rateA
    else if side == "B" then m.rateB
    else 0.0
  }

  /** A line the pass counts for match m: a BET line with all five tokens, on
      m, by a known player who has never been flagged. */
  predicate Counted(line: Line, m: Match, flagged: seq<int>, known: set<int>) {
    && |line.tokens| >= 5
    && Operation(line) == "BET"
    && line.player !in flagged
    && line.player in known
    && line.matchId == m.id
  }

  /** A line the pass can read: it has an operation token, and a counted line
      has a side with a first character. Any other line aborts the pass. */
  predicate Readable(line: Line, m: Match, flagged: seq<int>, known: set<int>) {
    |line.tokens| >= 2 && (Counted(line, m, flagged, known) ==> Side(line) != "")
  }

  predicate ReadableLog(lines: seq<Line>, m: Match, flagged: seq<int>, known: set<int>) {
    forall i :: 0 <= i < |lines| ==> Readable(lines[i], m, flagged, known)
  }

  /** What one line adds to the casino balance: a winning bet adds its stake
      times the coefficient of its side, a losing bet takes its stake away. */
  function Contribution(line: Line, m: Match, flagged: seq<int>, known: set<int>): (r: real)
    requires Readable(line, m, flagged, known)
    ensures r != 0.0 ==> Counted(line, m, flagged, known)
  {
    if !Counted(line, m, flagged, known) then 0.0
    else if Side(line)[0] == m.result then line.amount as real * Coefficient(m, Side(line))
    else -(line.amount as real)
  }

  /** With a non-negative stake, a player's loss never raises the casino
      balance, and with non-negative rates a player's win never lowers it, so
      no line takes more than its stake off the balance. */
  lemma ContributionSign(line: Line, m: Match, flagged: seq<int>, known: set<int>)
    requires Readable(line, m, flagged, known)
    requires line.amount >= 0
    ensures Counted(line, m, flagged, known) && Side(line)[0] != m.result ==>
      Contribution(line, m, flagged, known) <= 0.0
    ensures 0.0 <= m.rateA && 0.0 <= m.rateB && Counted(line, m, flagged, known) && Side(line)[0] == m.result ==>
      Contribution(line, m, flagged, known) >= 0.0
    ensures 0.0 <= m.rateA && 0.0 <= m.rateB ==> Contribution(line, m, flagged, known) >= -(line.amount as real)
  {
  }

  /** What a single counted line is worth: a win on "A" pays rateA, a win on
      "B" pays rateB, a win on any other side pays nothing, a loss costs the
      stake; an uncounted line is worth nothing. */
  lemma SingleLine(line: Line, m: Match, flagged: seq<int>, known: set<int>)
    requires Readable(line, m, flagged, known)
    ensures ReadableLog([line], m, flagged, known)
    ensures !Counted(line, m, flagged, known) ==> CasinoDelta([line], m, flagged, known) == 0.0
    ensures Counted(line, m, flagged, known) && Side(line)[0] == m.result ==>
      CasinoDelta([line], m, flagged, known) == line.amount as real *
        (if Side(line) == "A" then m.rateA else if Side(line) == "B" then m.rateB else 0.0)
    ensures Counted(line, m, flagged, known) && Side(line)[0] != m.result ==>
      CasinoDelta([line], m, flagged, known) == -(line.amount as real)
  {
    assert [line][..0] == [];
  }

  /** The total that one run of calculateCasinoBalance adds to the casino balance. */
  function CasinoDelta(lines: seq<Line>, m: Match, flagged: seq<int>, known: set<int>): (r: real)
    requires ReadableLog(lines, m, flagged, known)
    ensures (forall i :: 0 <= i < |lines| ==> !Counted(lines[i], m, flagged, known)) ==> r == 0.0
    decreases |lines|
  {
    if lines == [] then 0.0
    else
      CasinoDelta(lines[..|lines| - 1], m, flagged, known)
      + Contribution(lines[|lines| - 1], m, flagged, known)
  }

  /** The pass over two stretches of the log is the sum of the passes over each. */
  lemma {:induction false} CasinoDeltaAppend(xs: seq<Line>, ys: seq<Line>, m: Match, flagged: seq<int>, known: set<int>)
    requires ReadableLog(xs + ys, m, flagged, known)
    ensures ReadableLog(xs, m, flagged, known) && ReadableLog(ys, m, flagged, known)
    ensures CasinoDelta(xs + ys, m, flagged, known)
         == CasinoDelta(xs, m, flagged, known) + CasinoDelta(ys, m, flagged, known)
    decreases |ys|
  {
    assert forall i :: 0 <= i < |xs| ==> (xs + ys)[i] == xs[i];
    assert forall i :: 0 <= i < |ys| ==> (xs + ys)[|xs| + i] == ys[i];
    if ys == [] {
      assert xs + ys == xs;
    } else {
      var front := ys[..|ys| - 1];
      assert (xs + ys)[..|xs + ys| - 1] == xs + front;
      CasinoDeltaAppend(xs, front, m, flagged, known);
    }
  }

  /** Run before any player pass, when no player is known yet, the casino
      pass adds nothing: every BET line fails the known-player test. */
  lemma {:induction false} NoPlayersNoDelta(lines: seq<Line>, m: Match, flagged: seq<int>)
    requires ReadableLog(lines, m, flagged, {})
    ensures CasinoDelta(lines, m, flagged, {}) == 0.0
    decreases |lines|
  {
    if lines != [] {
      NoPlayersNoDelta(lines[..|lines| - 1], m, flagged);
    }
  }

  /** The lines of a log that keep selects, in order. */
  function Filter(lines: seq<Line>, keep: Line -> bool): (r: seq<Line>)
    ensures forall i :: 0 <= i < |r| ==> r[i] in lines && keep(r[i])
    decreases |lines|
  {
    if lines == [] then []
    else
      var front := Filter(lines[..|lines| - 1], keep);
      var last := lines[|lines| - 1];
      if keep(last) then front + [last] else front
  }

  /** Dropping lines the pass does not count does not change what it adds. */
  lemma {:induction false} CasinoDeltaFilter(lines: seq<Line>, keep: Line -> bool, m: Match, flagged: seq<int>, known: set<int>)
    requires ReadableLog(lines, m, flagged, known)
    requires forall i :: 0 <= i < |lines| && !keep(lines[i]) ==> !Counted(lines[i], m, flagged, known)
    ensures ReadableLog(Filter(lines, keep), m, flagged, known)
    ensures CasinoDelta(Filter(lines, keep), m, flagged, known) == CasinoDelta(lines, m, flagged, known)
    decreases |lines|
  {
    if lines != [] {
      var front := lines[..|lines| - 1];
      var last := lines[|lines| - 1];
      assert forall i :: 0 <= i < |front| ==> front[i] == lines[i];
      CasinoDeltaFilter(front, keep, m, flagged, known);
      var kept := Filter(front, keep);
      if keep(last) {
        var r := kept + [last];
        assert r[..|r| - 1] == kept;
        assert forall i :: 0 <= i < |kept| ==> r[i] == kept[i];
      } else {
        assert !Counted(last, m, flagged, known);
      }
    }
  }

  /** The pass for a match can read the lines of that match alone: grouping
      the log by match id once gives the same totals as scanning it per match. */
  lemma CasinoDeltaOfGroup(lines: seq<Line>, m: Match, flagged: seq<int>, known: set<int>)
    requires ReadableLog(lines, m, flagged, known)
    ensures ReadableLog(Filter(lines, (line: Line) => line.matchId == m.id), m, flagged, known)
    ensures CasinoDelta(Filter(lines, (line: Line) => line.matchId == m.id), m, flagged, known)
         == CasinoDelta(lines, m, flagged, known)
  {
    CasinoDeltaFilter(lines, (line: Line) => line.matchId == m.id, m, flagged, known);
  }

  /** A flagged player's bets never reach the casino balance: removing all of
      that player's lines changes nothing. */
  lemma CasinoDeltaSkipsFlagged(lines: seq<Line>, id: int, m: Match, flagged: seq<int>, known: set<int>)
    requires ReadableLog(lines, m, flagged, known)
    requires id in flagged
    ensures ReadableLog(Filter(lines, (line: Line) => line.player != id), m, flagged, known)
    ensures CasinoDelta(Filter(lines, (line: Line) => line.player != id), m, flagged, known)
         == CasinoDelta(lines, m, flagged, known)
  {
    CasinoDeltaFilter(lines, (line: Line) => line.player != id, m, flagged, known);
  }
}
