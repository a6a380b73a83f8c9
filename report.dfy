/** The selections behind the settlement report (src/main/java/BettingService.java,
    writeLegitimatePlayersResults, writeIllegitimatePlayersResults and
    getFirstIllegalOperation): which players each section lists, in what order,
    and with what data. Rendering the lines is not modelled. */
module Report {
  import opened Sorting
  import opened Players
  import opened Settlement

  /** A line of the first section: id, final balance and win rate. */
  datatype Standing = Standing(id: int, balance: int, winRate: real)

  /** The ids of the first section: every player with a record whose id is
      not in the flag list, ascending. */
  function LegitimateIds(b: Books): (ids: seq<int>)
    ensures StrictlyIncreasing(ids)
    ensures forall id :: id in ids <==> id in b.accounts && id !in b.flagged
  {
    SortedSet(set id | id in b.accounts && id !in b.flagged)
  }

  /** The ids of a section's rows, in row order. */
  function Ids<T>(rows: seq<T>, id: T -> int): (ids: seq<int>)
    ensures |ids| == |rows|
    ensures forall i :: 0 <= i < |rows| ==> ids[i] == id(rows[i])
  {
    seq(|rows|, i requires 0 <= i < |rows| => id(rows[i]))
  }

  function StandingId(row: Standing): int {
    row.id
  }

  /** The first section: exactly the players never flagged, ascending by id,
      each with its balance and win rate. */
  function LegitimateStandings(b: Books): (rows: seq<Standing>)
    ensures StrictlyIncreasing(Ids(rows, StandingId))
    ensures forall id :: id in Ids(rows, StandingId) <==> id in b.accounts && id !in b.flagged
    ensures forall i :: 0 <= i < |rows| ==> rows[i].id in b.accounts
    ensures forall i :: 0 <= i < |rows| ==>
      var a := b.accounts[rows[i].id];
      rows[i].balance == a.balance && rows[i].winRate == Rate(a.totalWins, a.totalBets)
    ensures WellFormed(b) ==> forall i :: 0 <= i < |rows| ==> 0.0 <= rows[i].winRate <= 1.0
  {
    var ids := LegitimateIds(b);
    var rows := seq(|ids|, i requires 0 <= i < |ids| =>
      var a := b.accounts[ids[i]];
      Standing(ids[i], a.balance, Rate(a.totalWins, a.totalBets)));
    assert Ids(rows, StandingId) == ids;
    forall i | 0 <= i < |rows|
      ensures rows[i].id in b.accounts
      ensures WellFormed(b) ==> 0.0 <= rows[i].winRate <= 1.0
    {
      assert rows[i].id == ids[i] && ids[i] in ids;
    }
    rows
  }

  /** What getFirstIllegalOperation finds: the first four tokens of a line,
      no line at all, or a line too short to have four tokens, on which the
      report fails. */
  datatype Lookup = Found(tokens: seq<string>) | NotFound | Truncated

  /** The four tokens getFirstIllegalOperation takes from the line it stops at. */
  function LeadingTokens(line: Line): Lookup {
    if |line.tokens| >= 4 then Found(line.tokens[..4]) else Truncated
  }

  /** Line i is the first line of the log that names player id. */
  ghost predicate IsFirstLine(log: seq<Line>, id: int, i: int) {
    && 0 <= i < |log|
    && log[i].player == id
    && forall j :: 0 <= j < i ==> log[j].player != id
  }

  /** getFirstIllegalOperation: the leading tokens of the first line naming
      the player, whatever its operation and whether or not it was refused. */
  function FirstOperation(log: seq<Line>, id: int): (r: Lookup)
    ensures r == NotFound <==> forall i :: 0 <= i < |log| ==> log[i].player != id
    ensures r != NotFound ==> exists i :: IsFirstLine(log, id, i) && r == LeadingTokens(log[i])
    decreases |log|
  {
    if log == [] then NotFound
    else if log[0].player == id then
      assert IsFirstLine(log, id, 0);
      LeadingTokens(log[0])
    else
      FirstOperation(log[1..], id)
  }

  /** A line of the second section: a flagged id and what was found for it. */
  datatype Offence = Offence(id: int, operation: Lookup)

  function OffenceId(row: Offence): int {
    row.id
  }

  /** The second section: the flag list sorted ascending, so that a player
      flagged k times is listed k times, each entry with the player's first
      operation in the log. */
  function IllegitimateReport(b: Books, log: seq<Line>): (rows: seq<Offence>)
    ensures Ascending(Ids(rows, OffenceId))
    ensures multiset(Ids(rows, OffenceId)) == multiset(b.flagged)
    ensures forall i :: 0 <= i < |rows| ==> rows[i].operation == FirstOperation(log, rows[i].id)
    ensures WellFormed(b) ==> forall i :: 0 <= i < |rows| ==> rows[i].id in b.accounts
  {
    var ids := Sort(b.flagged);
    var rows := seq(|ids|, i requires 0 <= i < |ids| => Offence(ids[i], FirstOperation(log, ids[i])));
    assert Ids(rows, OffenceId) == ids;
    FlaggedAreKnown(b, ids);
    rows
  }

  /** A rearrangement of a well-formed flag list names only players with a record. */
  lemma FlaggedAreKnown(b: Books, ids: seq<int>)
    requires multiset(ids) == multiset(b.flagged)
    ensures WellFormed(b) ==> forall i :: 0 <= i < |ids| ==> ids[i] in b.accounts
  {
    if WellFormed(b) {
      forall i | 0 <= i < |ids|
        ensures ids[i] in b.accounts
      {
        assert ids[i] in multiset(ids);
        assert ids[i] in b.flagged;
      }
    }
  }
}
