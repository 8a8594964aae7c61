/** compute_stats: the fill totals, the settlement ledger walked in stable timestamp order, and the return rate. */
module Stats {
  import opened Wrappers
  import opened Seqs
  import opened StableSort
  import opened Timestamps
  import opened CashFlow
  import opened Ledger

  /** The dictionary compute_stats returns. */
  datatype Stats = Stats(
    totalInvested: real,
    reinvested: real,
    cashInvested: real,
    realizedPnl: real,
    returnRate: real,
    cashIn: real,
    cashOut: real,
    cumulativeSeries: seq<Point>)

  /** `realized_pnl / total_invested` when something was invested, else 0. */
  function ReturnRate(realized: real, invested: real): (r: real)
    ensures invested > 0.0 ==> r * invested == realized
    ensures invested <= 0.0 ==> r == 0.0
  {
    if invested > 0.0 then realized / invested else 0.0
  }

  /** `sorted(settlements, key=lambda s: get_ts_ms(s) or 0)` */
  function SortSettlements(ss: seq<Settlement>, iso: IsoParser): seq<Settlement>
  {
    Sort(ss, SortKey(iso))
  }

  /** What compute_stats returns, as a function of its inputs. */
  function StatsOf(fills: seq<Fill>, ss: seq<Settlement>, iso: IsoParser): Stats
  {
    var invested, generated := TotalInvested(fills), TotalCashGenerated(fills);
    var ordered := SortSettlements(ss, iso);
    Stats(
      invested,
      Reinvested(invested, generated),
      CashInvested(invested, generated),
      RealizedPnl(ordered),
      ReturnRate(RealizedPnl(ordered), invested),
      CashIn(ordered),
      CashOut(ordered),
      Series(ordered, iso))
  }

  /** The fill figures: reinvested is bounded by both totals and the new cash is never negative. */
  ghost predicate FillFigures(st: Stats, fills: seq<Fill>)
  {
    && st.totalInvested == TotalInvested(fills)
    && st.reinvested <= st.totalInvested && st.reinvested <= TotalCashGenerated(fills)
    && 0.0 <= st.cashInvested == st.totalInvested - st.reinvested
    && (st.totalInvested > 0.0 ==> st.returnRate == st.realizedPnl / st.totalInvested)
    && (st.totalInvested <= 0.0 ==> st.returnRate == 0.0)
  }

  /** The ledger figures, stated over the settlements as they arrive. */
  ghost predicate LedgerFigures(st: Stats, ss: seq<Settlement>)
  {
    && st.realizedPnl == RealizedPnl(ss)
    && st.cashIn == CashIn(ss) && st.cashOut == CashOut(ss)
    && 0.0 <= st.cashIn && 0.0 <= st.cashOut && st.cashIn - st.cashOut == st.realizedPnl
  }

  /** The series: one point per charted settlement, in time order, ending at the running total. */
  ghost predicate SeriesFigures(st: Stats, ss: seq<Settlement>, iso: IsoParser)
  {
    var series := st.cumulativeSeries;
    && |series| == |Filter(ss, IsCharted(iso))|
    && (forall i, j :: 0 <= i < j < |series| ==> series[i].ts <= series[j].ts)
    && (series != [] ==> series[|series| - 1].cumulative == RunningTotal(ss, iso))
  }

  ghost predicate StatsInvariants(st: Stats, fills: seq<Fill>, ss: seq<Settlement>, iso: IsoParser)
  {
    FillFigures(st, fills) && LedgerFigures(st, ss) && SeriesFigures(st, ss, iso)
  }

  /** Sorting changes neither the totals nor which settlements are charted. */
  lemma {:induction false} SortKeepsTotals(ss: seq<Settlement>, iso: IsoParser)
    ensures var ordered := SortSettlements(ss, iso);
            && RealizedPnl(ordered) == RealizedPnl(ss)
            && CashIn(ordered) == CashIn(ss) && CashOut(ordered) == CashOut(ss)
            && RunningTotal(ordered, iso) == RunningTotal(ss, iso)
            && |Filter(ordered, IsCharted(iso))| == |Filter(ss, IsCharted(iso))|
  {
    var ordered := SortSettlements(ss, iso);
    SumPermutation(ordered, ss, Change);
    SumPermutation(ordered, ss, Credit);
    SumPermutation(ordered, ss, Debit);
    SumPermutation(ordered, ss, ChartedChange(iso));
    FilterPermutation(ordered, ss, IsCharted(iso));
    assert |multiset(Filter(ordered, IsCharted(iso)))| == |multiset(Filter(ss, IsCharted(iso)))|;
  }

  lemma {:induction false} StatsOfFillFigures(fills: seq<Fill>, ss: seq<Settlement>, iso: IsoParser)
    ensures FillFigures(StatsOf(fills, ss, iso), fills)
  {
    var st := StatsOf(fills, ss, iso);
    var invested, generated := TotalInvested(fills), TotalCashGenerated(fills);
    assert st.totalInvested == invested;
    assert st.reinvested == Reinvested(invested, generated);
    assert st.cashInvested == CashInvested(invested, generated);
    ReturnRateOf(st, st.realizedPnl, invested);
  }

  lemma {:induction false} ReturnRateOf(st: Stats, realized: real, invested: real)
    requires st.returnRate == ReturnRate(realized, invested)
    requires st.realizedPnl == realized && st.totalInvested == invested
    ensures st.totalInvested > 0.0 ==> st.returnRate == st.realizedPnl / st.totalInvested
    ensures st.totalInvested <= 0.0 ==> st.returnRate == 0.0
  {
  }

  lemma {:induction false} StatsOfLedgerFigures(fills: seq<Fill>, ss: seq<Settlement>, iso: IsoParser)
    ensures LedgerFigures(StatsOf(fills, ss, iso), ss)
  {
    SortKeepsTotals(ss, iso);
    LedgerBalances(SortSettlements(ss, iso));
  }

  lemma {:induction false} StatsOfSeriesFigures(fills: seq<Fill>, ss: seq<Settlement>, iso: IsoParser)
    ensures SeriesFigures(StatsOf(fills, ss, iso), ss, iso)
  {
    var ordered := SortSettlements(ss, iso);
    assert StatsOf(fills, ss, iso).cumulativeSeries == Series(ordered, iso);
    SortKeepsTotals(ss, iso);
    SeriesPoints(ordered, iso);
    SeriesChronological(ordered, iso);
    SeriesEndsAtRunningTotal(ordered, iso);
  }

  lemma {:induction false} StatsOfKeepsInvariants(fills: seq<Fill>, ss: seq<Settlement>, iso: IsoParser)
    ensures StatsInvariants(StatsOf(fills, ss, iso), fills, ss, iso)
  {
    StatsOfFillFigures(fills, ss, iso);
    StatsOfLedgerFigures(fills, ss, iso);
    StatsOfSeriesFigures(fills, ss, iso);
  }

  /** compute_stats */
  method ComputeStats(fills: seq<Fill>, ss: seq<Settlement>, iso: IsoParser) returns (st: Stats)
    ensures st == StatsOf(fills, ss, iso)
    ensures StatsInvariants(st, fills, ss, iso)
  {
    var invested, generated := AggregateFills(fills);
    var reinvested := Reinvested(invested, generated);
    var cashInvested := invested - reinvested;
    var ordered := SortSettlements(ss, iso);
    var realized, cashIn, cashOut, series := WalkLedger(ordered, iso);
    var returnRate := if invested > 0.0 then realized / invested else 0.0;
    st := Stats(invested, reinvested, cashInvested, realized, returnRate, cashIn, cashOut, series);
    StatsOfKeepsInvariants(fills, ss, iso);
  }

  /**
   * The same fills and settlements in any arrival order give the same figures: every scalar, the
   * number of points and the final cumulative value. (The order of points with equal timestamps,
   * and so their intermediate cumulative values, follows the arrival order.)
   */
  lemma {:induction false} StatsIgnoreArrivalOrder(f1: seq<Fill>, f2: seq<Fill>, s1: seq<Settlement>, s2: seq<Settlement>, iso: IsoParser)
    requires multiset(f1) == multiset(f2) && multiset(s1) == multiset(s2)
    ensures var a, b := StatsOf(f1, s1, iso), StatsOf(f2, s2, iso);
            && a.totalInvested == b.totalInvested && a.reinvested == b.reinvested
            && a.cashInvested == b.cashInvested && a.realizedPnl == b.realizedPnl
            && a.returnRate == b.returnRate && a.cashIn == b.cashIn && a.cashOut == b.cashOut
            && |a.cumulativeSeries| == |b.cumulativeSeries|
            && (a.cumulativeSeries != [] ==>
                  a.cumulativeSeries[|a.cumulativeSeries| - 1].cumulative
                  == b.cumulativeSeries[|b.cumulativeSeries| - 1].cumulative)
  {
    TotalsIgnoreOrder(f1, f2);
    StatsOfKeepsInvariants(f1, s1, iso);
    StatsOfKeepsInvariants(f2, s2, iso);
    SumPermutation(s1, s2, Change);
    SumPermutation(s1, s2, Credit);
    SumPermutation(s1, s2, Debit);
    SumPermutation(s1, s2, ChartedChange(iso));
    FilterPermutation(s1, s2, IsCharted(iso));
    assert |multiset(Filter(s1, IsCharted(iso)))| == |multiset(Filter(s2, IsCharted(iso)))|;
  }

  /** Two settlements for the examples below: one without any timestamp, one stamped at 5 seconds. */
  const UNTIMED: Settlement := Settlement(map[], Some(1.0), None)
  const TIMED: Settlement := Settlement(map["ts" := IntV(5)], Some(2.0), None)

  lemma {:induction false} ExampleTimestamps(iso: IsoParser)
    ensures GetTsMs(UNTIMED.attrs, iso) == None && GetTsMs(TIMED.attrs, iso) == Some(5000)
  {
  }

  /** The settlement without a timestamp sorts with key 0: ahead of the one at 5000 ms, not after it. */
  lemma {:induction false} UntimedSortsAsZero(iso: IsoParser)
    ensures SortSettlements([TIMED, UNTIMED], iso) == [UNTIMED, TIMED]
  {
    ExampleTimestamps(iso);
    SortSwapsPair(TIMED, UNTIMED, SortKey(iso));
  }

  /** Two more: one stamped at -5 seconds, one stamped at exactly 0. */
  const EARLY: Settlement := Settlement(map["ts" := IntV(-5)], Some(2.0), None)
  const AT_ZERO: Settlement := Settlement(map["ts" := IntV(0)], Some(2.0), None)

  /**
   * Key 0 is not "last": a settlement stamped before the epoch sorts ahead of the untimed one,
   * and one stamped at exactly 0 ties with it, so the two keep their arrival order either way.
   */
  lemma {:induction false} UntimedSortsBehindNegative(iso: IsoParser)
    ensures GetTsMs(EARLY.attrs, iso) == Some(-5000) && GetTsMs(AT_ZERO.attrs, iso) == Some(0)
    ensures SortSettlements([UNTIMED, EARLY], iso) == [EARLY, UNTIMED]
    ensures SortSettlements([UNTIMED, AT_ZERO], iso) == [UNTIMED, AT_ZERO]
    ensures SortSettlements([AT_ZERO, UNTIMED], iso) == [AT_ZERO, UNTIMED]
  {
    ExampleTimestamps(iso);
    assert GetTsMs(EARLY.attrs, iso) == Some(-5000);
    assert GetTsMs(AT_ZERO.attrs, iso) == Some(0);
    SortSwapsPair(UNTIMED, EARLY, SortKey(iso));
    SortKeepsPair(UNTIMED, AT_ZERO, SortKey(iso));
    SortKeepsPair(AT_ZERO, UNTIMED, SortKey(iso));
  }

  /** It still counts towards realized P&L but draws no point; the timed one draws one. */
  lemma {:induction false} UntimedCountsButIsNotCharted(iso: IsoParser)
    ensures StatsOf([], [TIMED, UNTIMED], iso).realizedPnl == 3.0
    ensures StatsOf([], [TIMED, UNTIMED], iso).cumulativeSeries == [Point(5000, 2.0)]
  {
    ExampleTimestamps(iso);
    UntimedSortsAsZero(iso);
    var ordered := [UNTIMED, TIMED];
    assert ordered[..1] == [UNTIMED];
    SumSingleton(UNTIMED, Change);
    SumSingleton(UNTIMED, ChartedChange(iso));
    assert RealizedPnl(ordered) == Sum([UNTIMED], Change) + Change(TIMED) == 3.0;
    assert Series([UNTIMED], iso) == [];
    assert RunningTotal(ordered, iso) == Sum([UNTIMED], ChartedChange(iso)) + ChartedChange(iso)(TIMED) == 2.0;
    assert Series(ordered, iso) == [Point(5000, 2.0)];
  }
}
