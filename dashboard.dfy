/**
 * The dashboard's table logic: keep today's rows, add the derived columns,
 * select the filtered and best-bets views, and pick the three slips.
 * The table is a sequence of rows; each added column is a field of the
 * scored row, computed row by row.
 */
module Dashboard {
  import opened Wrappers
  import opened Frames
  import opened Snapshot
  import opened Scoring

  /** A snapshot row together with its five derived columns. */
  datatype ScoredRow = ScoredRow(
    fixture: Fixture,
    bttsProbability: int,
    over25Probability: int,
    bttsSignal: Signal,
    over25Signal: Signal,
    recommendation: Recommendation)

  /** The derived columns of a row are the ones its own fixture determines. */
  ghost predicate Derived(r: ScoredRow)
  {
    && r.bttsProbability == BttsProbability(r.fixture)
    && r.over25Probability == Over25Probability(r.fixture)
    && r.bttsSignal == BttsSignal(r.bttsProbability)
    && r.over25Signal == Over25Signal(r.over25Probability)
    && r.recommendation == FinalSignal(r.bttsProbability, r.over25Probability)
  }

  /** The five derived columns of one row. */
  function Score(f: Fixture): (r: ScoredRow)
    ensures r.fixture == f && Derived(r)
    ensures r.recommendation == BestBet ==> r.bttsSignal == Strong && r.over25Signal == Strong
    ensures r.recommendation == Avoid ==> r.bttsProbability < 600 && r.over25Probability < 600
    ensures r.recommendation != Avoid ==> r.bttsSignal != Skip || r.over25Signal != Skip
    ensures f.homeScored >= 0 && f.awayScored >= 0 && f.bttsRate >= 0 ==> r.bttsProbability >= 0
    ensures f.homeScored >= 0 && f.awayScored >= 0 && f.over25Rate >= 0 ==> r.over25Probability >= 0
  {
    var btts := BttsProbability(f);
    var over25 := Over25Probability(f);
    RecommendationAgreesWithSignals(btts, over25);
    ScoredRow(f, btts, over25, BttsSignal(btts), Over25Signal(over25), FinalSignal(btts, over25))
  }

  /** Adding the derived columns keeps the rows and their order. */
  function AddColumns(df: seq<Fixture>): (scored: seq<ScoredRow>)
    ensures |scored| == |df|
    ensures forall k :: 0 <= k < |df| ==> scored[k].fixture == df[k] && Derived(scored[k])
  {
    seq(|df|, k requires 0 <= k < |df| => Score(df[k]))
  }

  /** The rows dated `today`, in file order. */
  function TodayRows(snapshot: seq<Fixture>, today: Date): (day: seq<Fixture>)
    ensures forall f :: f in day <==> f in snapshot && f.date == today
    ensures forall f :: multiset(day)[f] == if f.date == today then multiset(snapshot)[f] else 0
    ensures IsSubseq(day, snapshot)
  {
    WhereIsSubseq((f: Fixture) => f.date == today, snapshot);
    Where((f: Fixture) => f.date == today, snapshot)
  }

  /**
   * The view restricted to the rows whose BTTS signal is among `bttsFilter`
   * and whose Over 2.5 signal is among `overFilter`, in order.
   */
  function FilteredView(day: seq<ScoredRow>, bttsFilter: set<Signal>, overFilter: set<Signal>): (view: seq<ScoredRow>)
    ensures forall r :: r in view <==> r in day && r.bttsSignal in bttsFilter && r.over25Signal in overFilter
    ensures forall r :: multiset(view)[r] ==
              if r.bttsSignal in bttsFilter && r.over25Signal in overFilter then multiset(day)[r] else 0
    ensures IsSubseq(view, day)
  {
    var keep := (r: ScoredRow) => r.bttsSignal in bttsFilter && r.over25Signal in overFilter;
    WhereIsSubseq(keep, day);
    Where(keep, day)
  }

  /** The filter options and their default selection: every label present in the day's rows. */
  function PresentBttsSignals(day: seq<ScoredRow>): (labels: set<Signal>)
    ensures forall r :: r in day ==> r.bttsSignal in labels
    ensures forall s :: s in labels ==> exists r :: r in day && r.bttsSignal == s
  {
    set r | r in day :: r.bttsSignal
  }

  function PresentOver25Signals(day: seq<ScoredRow>): (labels: set<Signal>)
    ensures forall r :: r in day ==> r.over25Signal in labels
    ensures forall s :: s in labels ==> exists r :: r in day && r.over25Signal == s
  {
    set r | r in day :: r.over25Signal
  }

  /** With the default selections the filtered view is the whole day. */
  lemma DefaultFiltersKeepAll(day: seq<ScoredRow>)
    ensures FilteredView(day, PresentBttsSignals(day), PresentOver25Signals(day)) == day
  {
    var bttsFilter, overFilter := PresentBttsSignals(day), PresentOver25Signals(day);
    WhereAll((r: ScoredRow) => r.bttsSignal in bttsFilter && r.over25Signal in overFilter, day);
  }

  /** The best-bets mask as written: a high BTTS score, a high Over 2.5 score, or a best bet. */
  predicate IsBestBetsRow(r: ScoredRow)
  {
    r.bttsProbability >= 700 || r.over25Probability >= 650 || r.recommendation == BestBet
  }

  /** The best-bets view, selected from the filtered view. */
  function BestBets(view: seq<ScoredRow>): (best: seq<ScoredRow>)
    ensures forall r :: r in best <==> r in view && IsBestBetsRow(r)
    ensures forall r :: multiset(best)[r] == if IsBestBetsRow(r) then multiset(view)[r] else 0
    ensures IsSubseq(best, view)
  {
    WhereIsSubseq(IsBestBetsRow, view);
    Where(IsBestBetsRow, view)
  }

  predicate IsHighScore(r: ScoredRow)
  {
    r.bttsProbability >= 700 || r.over25Probability >= 650
  }

  /** On scored rows the best-bet disjunct of the mask adds nothing: the two score tests decide. */
  lemma BestBetDisjunctRedundant(view: seq<ScoredRow>)
    requires forall r :: r in view ==> Derived(r)
    ensures BestBets(view) == Where(IsHighScore, view)
  {
  }

  /** Slip membership tests, on the recommendation alone. */
  predicate IsSafe(r: ScoredRow)
  {
    r.recommendation == BestBet
  }

  predicate IsModerate(r: ScoredRow)
  {
    r.recommendation == BestBet || r.recommendation == BttsOnly
  }

  predicate IsRisky(r: ScoredRow)
  {
    r.recommendation != Avoid
  }

  /** The first `n` rows of the day, in file order, that pass `keep`. */
  function Slip(day: seq<ScoredRow>, keep: ScoredRow -> bool, n: nat): (slip: seq<ScoredRow>)
    ensures |slip| == if |Where(keep, day)| < n then |Where(keep, day)| else n
    ensures slip <= Where(keep, day)
    ensures forall r :: r in slip ==> r in day && keep(r)
    ensures |slip| < n ==> forall r :: r in day && keep(r) ==> r in slip
    ensures IsSubseq(slip, day)
  {
    var all := Where(keep, day);
    var slip := Head(all, n);
    assert forall r :: r in slip ==> r in all by {
      forall r | r in slip ensures r in all {
        var k :| 0 <= k < |slip| && slip[k] == r;
        assert all[k] == r;
      }
    }
    PrefixIsSubseq(slip, all);
    WhereIsSubseq(keep, day);
    SubseqTrans(slip, all, day);
    slip
  }

  /** Safe slip: the first two best bets of the day. */
  function SafeSlip(day: seq<ScoredRow>): (slip: seq<ScoredRow>)
    ensures |slip| == if |Where(IsSafe, day)| < 2 then |Where(IsSafe, day)| else 2
    ensures slip <= Where(IsSafe, day)
    ensures forall r :: r in slip ==> r in day && r.recommendation == BestBet
  {
    Slip(day, IsSafe, 2)
  }

  /** Moderate slip: the first four rows that are a best bet or BTTS only. */
  function ModerateSlip(day: seq<ScoredRow>): (slip: seq<ScoredRow>)
    ensures |slip| == if |Where(IsModerate, day)| < 4 then |Where(IsModerate, day)| else 4
    ensures slip <= Where(IsModerate, day)
    ensures forall r :: r in slip ==> r in day && (r.recommendation == BestBet || r.recommendation == BttsOnly)
  {
    Slip(day, IsModerate, 4)
  }

  /** Risky slip: the first five rows not to avoid. */
  function RiskySlip(day: seq<ScoredRow>): (slip: seq<ScoredRow>)
    ensures |slip| == if |Where(IsRisky, day)| < 5 then |Where(IsRisky, day)| else 5
    ensures slip <= Where(IsRisky, day)
    ensures forall r :: r in slip ==> r in day && r.recommendation != Avoid
  {
    Slip(day, IsRisky, 5)
  }

  /** Everything the dashboard shows for one day. */
  datatype Views = Views(
    day: seq<ScoredRow>,
    filtered: seq<ScoredRow>,
    bestBets: seq<ScoredRow>,
    safe: seq<ScoredRow>,
    moderate: seq<ScoredRow>,
    risky: seq<ScoredRow>)

  /** Why the dashboard stops before showing anything. */
  datatype Halt = NoMatchesToday

  /**
   * The dashboard for `today` under the two signal selections: it stops when
   * no row is dated today; otherwise the day's scored rows, the filtered and
   * best-bets views, and three slips taken from the unfiltered day.
   */
  function Present(snapshot: seq<Fixture>, today: Date, bttsFilter: set<Signal>, overFilter: set<Signal>)
    : (r: Result<Views, Halt>)
    ensures r.Failure? <==> forall f :: f in snapshot ==> f.date != today
    ensures r.Success? ==>
      var v := r.value;
      && v.day == AddColumns(TodayRows(snapshot, today))
      && v.filtered == FilteredView(v.day, bttsFilter, overFilter)
      && v.bestBets == BestBets(v.filtered)
      && v.safe == SafeSlip(v.day) && v.moderate == ModerateSlip(v.day) && v.risky == RiskySlip(v.day)
      && v.day != []
      && (forall s :: s in v.day ==> s.fixture in snapshot && s.fixture.date == today && Derived(s))
      && IsSubseq(v.filtered, v.day)
      && (forall s :: s in v.filtered ==> s.bttsSignal in bttsFilter && s.over25Signal in overFilter)
      && IsSubseq(v.bestBets, v.filtered)
      && (forall s :: s in v.bestBets ==> s.bttsProbability >= 700 || s.over25Probability >= 650)
      && |v.safe| == (if |Where(IsSafe, v.day)| < 2 then |Where(IsSafe, v.day)| else 2) && v.safe <= Where(IsSafe, v.day) && IsSubseq(v.safe, v.day)
      && |v.moderate| == (if |Where(IsModerate, v.day)| < 4 then |Where(IsModerate, v.day)| else 4) && v.moderate <= Where(IsModerate, v.day) && IsSubseq(v.moderate, v.day)
      && |v.risky| == (if |Where(IsRisky, v.day)| < 5 then |Where(IsRisky, v.day)| else 5) && v.risky <= Where(IsRisky, v.day) && IsSubseq(v.risky, v.day)
  {
    var df := TodayRows(snapshot, today);
    WhereEmpty((f: Fixture) => f.date == today, snapshot);
    if df == [] then Failure(NoMatchesToday)
    else
      var day := AddColumns(df);
      assert forall s :: s in day ==> s.fixture in df by {
        forall s | s in day ensures s.fixture in df {
          var k :| 0 <= k < |day| && day[k] == s;
        }
      }
      var filtered := FilteredView(day, bttsFilter, overFilter);
      var best := BestBets(filtered);
      SubseqTrans(best, filtered, day);
      Success(Views(day, filtered, best, SafeSlip(day), ModerateSlip(day), RiskySlip(day)))
  }
}
