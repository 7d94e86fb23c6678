/**
 * The persisted snapshot that links the fetcher to the dashboard: one
 * fixture record per supported match of the day.
 */
module Snapshot {

  /** A calendar date; the text form written by the fetcher and its parsing are not modelled. */
  datatype Date = Date(year: int, month: int, day: int)

  /**
   * One row of the snapshot. Goal counts are the goals a side scored over
   * its recent matches; the two league rates are whole percentages.
   */
  datatype Fixture = Fixture(
    date: Date,
    league: string,
    homeTeam: string,
    awayTeam: string,
    homeScored: int,
    awayScored: int,
    bttsRate: int,
    over25Rate: int)
}
