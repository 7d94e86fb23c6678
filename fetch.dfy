/**
 * The fetcher: sum each team's recent goals, keep the day's fixtures from
 * the supported leagues, attach the league base rates with their defaults,
 * and produce the snapshot rows. The sports-data service is a parameter:
 * `fixtures` is the day's fixture list and `recent(id)` the recent matches
 * of team `id`, both already decoded.
 */
module Fetch {
  import opened Wrappers
  import opened Frames
  import opened Snapshot

  /** The decoded shape of one fixture: `teams.home/away.{id,name}`, `goals.home/away`, `league.name`. */
  datatype Team = Team(id: int, name: string)
  datatype Goals = Goals(home: Option<int>, away: Option<int>)
  datatype Match = Match(league: string, home: Team, away: Team, goals: Goals)

  /** Raw league names of the service mapped to the snapshot's league keys. */
  const LeagueMap: map<string, string> := map[
    "Premier League" := "EPL",
    "La Liga" := "LaLiga",
    "Serie A" := "Serie A",
    "Bundesliga" := "Bundesliga",
    "Ligue 1" := "Ligue 1"]

  const SupportedLeagues: set<string> := {"EPL", "LaLiga", "Serie A", "Bundesliga", "Ligue 1"}

  lemma LeagueMapOntoSupported()
    ensures LeagueMap.Values == SupportedLeagues
  {
    assert LeagueMap["Premier League"] == "EPL";
    assert LeagueMap["La Liga"] == "LaLiga";
    assert LeagueMap["Serie A"] == "Serie A";
    assert LeagueMap["Bundesliga"] == "Bundesliga";
    assert LeagueMap["Ligue 1"] == "Ligue 1";
  }

  // ---------------------------------------------------------------- form

  /** `value or 0`: a null goal count counts as no goals. */
  function NullAsZero(g: Option<int>): (n: int)
    ensures g.None? ==> n == 0
    ensures g.Some? ==> n == g.value
  {
    if g.Some? then g.value else 0
  }

  /**
   * The goals a team scored in one match: the home count when it is the home
   * side, otherwise the away count.
   */
  function GoalsFor(teamId: int, m: Match): int
  {
    if m.home.id == teamId then NullAsZero(m.goals.home) else NullAsZero(m.goals.away)
  }

  /** The total of a team's own goals over a list of matches. */
  function GoalsScored(teamId: int, matches: seq<Match>): int
  {
    if matches == [] then 0 else GoalsFor(teamId, matches[0]) + GoalsScored(teamId, matches[1..])
  }

  lemma {:induction false} GoalsScoredAppend(teamId: int, a: seq<Match>, b: seq<Match>)
    ensures GoalsScored(teamId, a + b) == GoalsScored(teamId, a) + GoalsScored(teamId, b)
    decreases |a|
  {
    if a == [] {
      assert a + b == b;
    } else {
      assert (a + b)[0] == a[0];
      assert (a + b)[1..] == a[1..] + b;
      GoalsScoredAppend(teamId, a[1..], b);
    }
  }

  /** No recorded goal count is negative. */
  predicate NonNegativeGoals(m: Match)
  {
    (m.goals.home.Some? ==> m.goals.home.value >= 0) && (m.goals.away.Some? ==> m.goals.away.value >= 0)
  }

  lemma {:induction false} GoalsScoredNonNegative(teamId: int, matches: seq<Match>)
    requires forall m :: m in matches ==> NonNegativeGoals(m)
    ensures GoalsScored(teamId, matches) >= 0
    decreases |matches|
  {
    if matches != [] {
      assert matches[0] in matches;
      assert forall m :: m in matches[1..] ==> m in matches;
      GoalsScoredNonNegative(teamId, matches[1..]);
    }
  }

  /** Goals scored by `teamId` over its recent matches, summed in one pass. */
  method GoalsLast5(teamId: int, recent: seq<Match>) returns (goals: int)
    ensures goals == GoalsScored(teamId, recent)
    ensures recent == [] ==> goals == 0
    ensures (forall m :: m in recent ==> NonNegativeGoals(m)) ==> goals >= 0
  {
    goals := 0;
    for i := 0 to |recent|
      invariant goals == GoalsScored(teamId, recent[..i])
    {
      var m := recent[i];
      assert recent[..i + 1] == recent[..i] + [m];
      GoalsScoredAppend(teamId, recent[..i], [m]);
      if m.home.id == teamId {
        goals := goals + NullAsZero(m.goals.home);
      } else {
        goals := goals + NullAsZero(m.goals.away);
      }
    }
    assert recent[..|recent|] == recent;
    if forall m :: m in recent ==> NonNegativeGoals(m) {
      GoalsScoredNonNegative(teamId, recent);
    }
  }

  // ---------------------------------------------------------- fixture rows

  /** A row of the fixture loop, before the league rates are attached. */
  datatype FormRow = FormRow(
    date: Date,
    league: string,
    homeTeam: string,
    awayTeam: string,
    homeScored: int,
    awayScored: int)

  predicate Supported(m: Match)
  {
    m.league in LeagueMap
  }

  /** The row the loop appends for a fixture of a supported league. */
  function RowFor(m: Match, today: Date, recent: int -> seq<Match>): (row: FormRow)
    requires Supported(m)
    ensures row.date == today
    ensures row.league == LeagueMap[m.league] && row.league in SupportedLeagues
    ensures row.homeTeam == m.home.name && row.awayTeam == m.away.name
    ensures row.homeScored == GoalsScored(m.home.id, recent(m.home.id))
    ensures row.awayScored == GoalsScored(m.away.id, recent(m.away.id))
  {
    LeagueMapOntoSupported();
    FormRow(today, LeagueMap[m.league], m.home.name, m.away.name,
            GoalsScored(m.home.id, recent(m.home.id)), GoalsScored(m.away.id, recent(m.away.id)))
  }

  /** The rows of the fixture loop: one per supported fixture, in input order. */
  function Collected(fixtures: seq<Match>, today: Date, recent: int -> seq<Match>): seq<FormRow>
  {
    if fixtures == [] then []
    else
      (if Supported(fixtures[0]) then [RowFor(fixtures[0], today, recent)] else [])
      + Collected(fixtures[1..], today, recent)
  }

  lemma {:induction false} CollectedSnoc(fixtures: seq<Match>, m: Match, today: Date, recent: int -> seq<Match>)
    ensures Collected(fixtures + [m], today, recent)
         == Collected(fixtures, today, recent) + (if Supported(m) then [RowFor(m, today, recent)] else [])
    decreases |fixtures|
  {
    if fixtures != [] {
      assert (fixtures + [m])[1..] == fixtures[1..] + [m];
      CollectedSnoc(fixtures[1..], m, today, recent);
    }
  }

  /**
   * The rows correspond one to one, in order, to the fixtures of supported
   * leagues; a fixture of any other league yields no row.
   */
  lemma {:induction false} CollectedMatchesSupported(fixtures: seq<Match>, today: Date, recent: int -> seq<Match>)
    ensures var kept := Where(Supported, fixtures);
            var rows := Collected(fixtures, today, recent);
            |rows| == |kept| && forall k :: 0 <= k < |rows| ==> rows[k] == RowFor(kept[k], today, recent)
    decreases |fixtures|
  {
    if fixtures != [] {
      CollectedMatchesSupported(fixtures[1..], today, recent);
    }
  }

  /** The fixture loop: skip unsupported leagues, append one row per remaining fixture. */
  method CollectRows(fixtures: seq<Match>, today: Date, recent: int -> seq<Match>) returns (rows: seq<FormRow>)
    ensures rows == Collected(fixtures, today, recent)
    ensures |rows| == |Where(Supported, fixtures)|
    ensures forall k :: 0 <= k < |rows| ==>
              var m := Where(Supported, fixtures)[k];
              Supported(m) && rows[k].league == LeagueMap[m.league] && rows[k].homeTeam == m.home.name && rows[k].awayTeam == m.away.name
    ensures forall r :: r in rows ==> r.league in SupportedLeagues && r.date == today
  {
    rows := [];
    for i := 0 to |fixtures|
      invariant rows == Collected(fixtures[..i], today, recent)
    {
      var m := fixtures[i];
      assert fixtures[..i + 1] == fixtures[..i] + [m];
      CollectedSnoc(fixtures[..i], m, today, recent);
      var league := Get(LeagueMap, m.league);
      if league.None? {
        continue;
      }
      var homeScored := GoalsLast5(m.home.id, recent(m.home.id));
      var awayScored := GoalsLast5(m.away.id, recent(m.away.id));
      rows := rows + [FormRow(today, league.value, m.home.name, m.away.name, homeScored, awayScored)];
    }
    assert fixtures[..|fixtures|] == fixtures;
    CollectedMatchesSupported(fixtures, today, recent);
  }

  // ------------------------------------------------------- league base rates

  /** One row of the league reference table; a blank cell is `None`. */
  datatype LeagueStats = LeagueStats(bttsRate: Option<int>, over25Rate: Option<int>)

  /** A fixture row after the left join with the league table. */
  datatype MergedRow = MergedRow(form: FormRow, bttsRate: Option<int>, over25Rate: Option<int>)

  /** Left join on the league key: every row kept in order, rates looked up or missing. */
  function Merge(rows: seq<FormRow>, stats: map<string, LeagueStats>): (merged: seq<MergedRow>)
    ensures |merged| == |rows|
    ensures forall k :: 0 <= k < |rows| ==> merged[k].form == rows[k]
    ensures forall k :: 0 <= k < |rows| && rows[k].league !in stats ==>
              merged[k].bttsRate.None? && merged[k].over25Rate.None?
    ensures forall k :: 0 <= k < |rows| && rows[k].league in stats ==>
              merged[k].bttsRate == stats[rows[k].league].bttsRate
              && merged[k].over25Rate == stats[rows[k].league].over25Rate
  {
    seq(|rows|, k requires 0 <= k < |rows| =>
      if rows[k].league in stats
      then MergedRow(rows[k], stats[rows[k].league].bttsRate, stats[rows[k].league].over25Rate)
      else MergedRow(rows[k], None, None))
  }

  datatype RateColumn = BttsColumn | Over25Column

  function Column(row: MergedRow, column: RateColumn): Option<int>
  {
    match column
    case BttsColumn => row.bttsRate
    case Over25Column => row.over25Rate
  }

  function Other(column: RateColumn): RateColumn
  {
    match column
    case BttsColumn => Over25Column
    case Over25Column => BttsColumn
  }

  /** One row after `fillna(fallback)` on one rate column. */
  function Filled(row: MergedRow, column: RateColumn, fallback: int): (filled: MergedRow)
    ensures filled.form == row.form
    ensures Column(row, column).Some? ==> Column(filled, column) == Column(row, column)
    ensures Column(row, column).None? ==> Column(filled, column) == Some(fallback)
    ensures Column(filled, Other(column)) == Column(row, Other(column))
  {
    match column
    case BttsColumn => row.(bttsRate := Some(row.bttsRate.GetOr(fallback)))
    case Over25Column => row.(over25Rate := Some(row.over25Rate.GetOr(fallback)))
  }

  /** `fillna` on one column of the merged table, overwriting it in place. */
  method FillNa(table: array<MergedRow>, column: RateColumn, fallback: int)
    modifies table
    ensures forall k :: 0 <= k < table.Length ==> table[k] == Filled(old(table[k]), column, fallback)
  {
    forall k | 0 <= k < table.Length {
      table[k] := Filled(table[k], column, fallback);
    }
  }

  /** The BTTS base rate a league ends up with: the table's, or 55 when missing. */
  function BttsRateOf(stats: map<string, LeagueStats>, league: string): int
  {
    if league in stats then stats[league].bttsRate.GetOr(55) else 55
  }

  /** The Over 2.5 base rate a league ends up with: the table's, or 58 when missing. */
  function Over25RateOf(stats: map<string, LeagueStats>, league: string): int
  {
    if league in stats then stats[league].over25Rate.GetOr(58) else 58
  }

  predicate Complete(row: MergedRow)
  {
    row.bttsRate.Some? && row.over25Rate.Some?
  }

  /** The snapshot rows of a table whose rates are all filled. */
  function Settle(table: seq<MergedRow>): (snapshot: seq<Fixture>)
    requires forall k :: 0 <= k < |table| ==> Complete(table[k])
    ensures |snapshot| == |table|
  {
    seq(|table|, k requires 0 <= k < |table| && Complete(table[k]) =>
      var r := table[k];
      Fixture(r.form.date, r.form.league, r.form.homeTeam, r.form.awayTeam,
              r.form.homeScored, r.form.awayScored, r.bttsRate.value, r.over25Rate.value))
  }

  // ------------------------------------------------------------------- run

  /** Why a fetch run ends without writing a snapshot. */
  datatype FetchHalt = NoSupportedFixtures

  /**
   * One fetch run: the rows it would write, or an early stop (before the
   * join and before anything is written) when no fixture is from a
   * supported league.
   */
  method FetchRun(fixtures: seq<Match>, today: Date, recent: int -> seq<Match>, stats: map<string, LeagueStats>)
    returns (out: Result<seq<Fixture>, FetchHalt>)
    ensures out.Failure? <==> forall m :: m in fixtures ==> !Supported(m)
    ensures out.Success? ==>
              var kept := Where(Supported, fixtures);
              |out.value| == |kept|
              && forall k :: 0 <= k < |kept| ==>
                   var m, f := kept[k], out.value[k];
                   && f.date == today
                   && Supported(m) && f.league == LeagueMap[m.league]
                   && f.league in SupportedLeagues
                   && f.homeTeam == m.home.name && f.awayTeam == m.away.name
                   && f.homeScored == GoalsScored(m.home.id, recent(m.home.id))
                   && f.awayScored == GoalsScored(m.away.id, recent(m.away.id))
                   && f.bttsRate == BttsRateOf(stats, f.league)
                   && f.over25Rate == Over25RateOf(stats, f.league)
  {
    var rows := CollectRows(fixtures, today, recent);
    WhereEmpty(Supported, fixtures);
    if |rows| == 0 {
      return Failure(NoSupportedFixtures);
    }
    CollectedMatchesSupported(fixtures, today, recent);
    var merged := Merge(rows, stats);
    var table := new MergedRow[|merged|](k requires 0 <= k < |merged| => merged[k]);
    FillNa(table, BttsColumn, 55);
    FillNa(table, Over25Column, 58);
    out := Success(Settle(table[..]));
  }
}
