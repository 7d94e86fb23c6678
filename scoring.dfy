/**
 * The per-row scoring of the dashboard: two probability scores, a
 * three-tier signal for each, and one final recommendation.
 *
 * Scores are kept exactly as whole tenths of a percentage point (153.3 is
 * 1533). For whole goal counts h, a and a whole league rate r the unrounded
 * score is ((h/5 + a/5 + r/100) / 3) * 100 = (200h + 200a + 10r) / 30, so ten
 * times the score is (200h + 200a + 10r) / 3, whose fractional part is 0, 1/3
 * or 2/3: rounding to one decimal never meets a tie.
 */
module Scoring {
  import opened Snapshot

  /** Three times the unrounded score, in tenths of a percentage point. */
  function ThriceTenths(homeScored: int, awayScored: int, leagueRate: int): int
  {
    200 * homeScored + 200 * awayScored + 10 * leagueRate
  }

  function Abs(x: int): nat
  {
    if x < 0 then -x else x
  }

  /**
   * The three-way average of home scoring rate, away scoring rate and league
   * base rate, as a percentage rounded to one decimal, in tenths.
   */
  function Probability(homeScored: int, awayScored: int, leagueRate: int): (tenths: int)
    ensures Abs(3 * tenths - ThriceTenths(homeScored, awayScored, leagueRate)) <= 1
    ensures homeScored >= 0 && awayScored >= 0 && leagueRate >= 0 ==> tenths >= 0
  {
    (ThriceTenths(homeScored, awayScored, leagueRate) + 1) / 3
  }

  /** The rounded score is the nearest tenth: no other tenth is closer to the exact value. */
  lemma ProbabilityIsNearest(homeScored: int, awayScored: int, leagueRate: int, other: int)
    ensures var exact := ThriceTenths(homeScored, awayScored, leagueRate);
            Abs(3 * Probability(homeScored, awayScored, leagueRate) - exact) <= Abs(3 * other - exact)
  {
  }

  /** Scoring more goals, or a higher league rate, never lowers the score. */
  lemma ProbabilityMonotone(h: int, a: int, r: int, h': int, a': int, r': int)
    requires h <= h' && a <= a' && r <= r'
    ensures Probability(h, a, r) <= Probability(h', a', r')
  {
  }

  /** The score is not capped at 100%: ten goals a side and a 60% league give 153.3%. */
  lemma ProbabilityUnbounded()
    ensures Probability(10, 10, 60) == 1533
  {
  }

  /** The both-teams-to-score score of a fixture, in tenths. */
  function BttsProbability(f: Fixture): (tenths: int)
    ensures Abs(3 * tenths - ThriceTenths(f.homeScored, f.awayScored, f.bttsRate)) <= 1
  {
    Probability(f.homeScored, f.awayScored, f.bttsRate)
  }

  /** The over-2.5-goals score of a fixture, in tenths. */
  function Over25Probability(f: Fixture): (tenths: int)
    ensures Abs(3 * tenths - ThriceTenths(f.homeScored, f.awayScored, f.over25Rate)) <= 1
  {
    Probability(f.homeScored, f.awayScored, f.over25Rate)
  }

  datatype Signal = Strong | Medium | Skip

  /** Signal strength as an order: Skip < Medium < Strong. */
  function Rank(s: Signal): nat
  {
    match s
    case Skip => 0
    case Medium => 1
    case Strong => 2
  }

  /** BTTS ladder: 70.0 and up is Strong, 55.0 up to 70.0 Medium, below 55.0 Skip. */
  function BttsSignal(tenths: int): (s: Signal)
    ensures s == Strong <==> tenths >= 700
    ensures s == Medium <==> 550 <= tenths < 700
    ensures s == Skip <==> tenths < 550
  {
    if tenths >= 700 then Strong
    else if tenths >= 550 then Medium
    else Skip
  }

  /** Over-2.5 ladder: 65.0 and up is Strong, 50.0 up to 65.0 Medium, below 50.0 Skip. */
  function Over25Signal(tenths: int): (s: Signal)
    ensures s == Strong <==> tenths >= 650
    ensures s == Medium <==> 500 <= tenths < 650
    ensures s == Skip <==> tenths < 500
  {
    if tenths >= 650 then Strong
    else if tenths >= 500 then Medium
    else Skip
  }

  /** Both ladders are closed at their lower bounds. */
  lemma SignalBoundaries()
    ensures BttsSignal(700) == Strong && BttsSignal(699) == Medium
    ensures BttsSignal(550) == Medium && BttsSignal(549) == Skip
    ensures Over25Signal(650) == Strong && Over25Signal(649) == Medium
    ensures Over25Signal(500) == Medium && Over25Signal(499) == Skip
  {
  }

  /** A higher score never earns a weaker signal. */
  lemma SignalsMonotone(p: int, q: int)
    requires p <= q
    ensures Rank(BttsSignal(p)) <= Rank(BttsSignal(q))
    ensures Rank(Over25Signal(p)) <= Rank(Over25Signal(q))
  {
  }

  datatype Recommendation = BestBet | BttsOnly | Over25 | Avoid

  /**
   * The final recommendation, decided on the two scores (not on the signals)
   * in a fixed priority order; its thresholds differ from the ladders'.
   */
  function FinalSignal(btts: int, over25: int): (r: Recommendation)
    ensures r == BestBet <==> btts >= 700 && over25 >= 650
    ensures r == BttsOnly <==> btts >= 600 && (btts < 700 || over25 < 650)
    ensures r == Over25 <==> btts < 600 && over25 >= 600
    ensures r == Avoid <==> btts < 600 && over25 < 600
  {
    if btts >= 700 && over25 >= 650 then BestBet
    else if btts >= 600 then BttsOnly
    else if over25 >= 600 then Over25
    else Avoid
  }

  /** The priority order decides overlaps: 75.0 / 70.0 also meets the later branches but is a best bet. */
  lemma FinalSignalPriority()
    ensures FinalSignal(750, 700) == BestBet
    ensures FinalSignal(650, 700) == BttsOnly
    ensures FinalSignal(590, 700) == Over25
  {
  }

  /**
   * How the recommendation relates to the two signals: a best bet is Strong on
   * both ladders, an avoid is below 60.0 on both scores, and anything
   * recommended is at least Medium on one ladder.
   */
  lemma RecommendationAgreesWithSignals(btts: int, over25: int)
    ensures FinalSignal(btts, over25) == BestBet ==>
              BttsSignal(btts) == Strong && Over25Signal(over25) == Strong
    ensures FinalSignal(btts, over25) == Avoid ==> btts < 600 && over25 < 600
    ensures FinalSignal(btts, over25) != Avoid ==>
              Rank(BttsSignal(btts)) >= 1 || Rank(Over25Signal(over25)) >= 1
  {
  }
}
