/**
 * The settlement loop of compute_stats: realized P&L, cash in and cash out over every settlement
 * that has a cash change, and the cumulative series over those that also have a timestamp.
 */
module Ledger {
  import opened Wrappers
  import opened Seqs
  import opened StableSort
  import opened Timestamps

  /**
   * A settlement: the attributes get_ts_ms reads, and the two spellings of its cash change
   * (None when the attribute is absent or None).
   */
  datatype Settlement = Settlement(attrs: Record, cashChange: Option<real>, cashChangeCamel: Option<real>)

  /** One point of the cumulative series: `{"ts": ts, "cumulative": running}`. */
  datatype Point = Point(ts: int, cumulative: real)

  /** `cash_change`, falling back to `cashChange` only when the first is None. */
  function CashChange(s: Settlement): (c: Option<real>)
    ensures c.None? <==> s.cashChange.None? && s.cashChangeCamel.None?
    ensures s.cashChange.Some? ==> c == s.cashChange
    ensures s.cashChange.None? ==> c == s.cashChangeCamel
  {
    if s.cashChange.Some? then s.cashChange else s.cashChangeCamel
  }

  /** The sort key `get_ts_ms(s) or 0`: a settlement without a timestamp sorts as 0. */
  function SortKey(iso: IsoParser): Settlement -> int
  {
    (s: Settlement) => GetTsMs(s.attrs, iso).GetOr(0)
  }

  /** What a settlement adds to realized_pnl: its cash change, or nothing when it is skipped. */
  function Change(s: Settlement): real
  {
    CashChange(s).GetOr(0.0)
  }

  /** What it adds to cash_in. */
  function Credit(s: Settlement): real
  {
    if Change(s) > 0.0 then Change(s) else 0.0
  }

  /** What it adds to cash_out. */
  function Debit(s: Settlement): real
  {
    if Change(s) < 0.0 then -Change(s) else 0.0
  }

  /** A settlement gets a point on the curve when it has both a cash change and a timestamp. */
  predicate Charted(s: Settlement, iso: IsoParser)
  {
    CashChange(s).Some? && GetTsMs(s.attrs, iso).Some?
  }

  function IsCharted(iso: IsoParser): Settlement -> bool
  {
    s => Charted(s, iso)
  }

  /** What it adds to `running`. */
  function ChartedChange(iso: IsoParser): Settlement -> real
  {
    s => if Charted(s, iso) then Change(s) else 0.0
  }

  function RealizedPnl(ss: seq<Settlement>): real
  {
    Sum(ss, Change)
  }

  function CashIn(ss: seq<Settlement>): real
  {
    Sum(ss, Credit)
  }

  function CashOut(ss: seq<Settlement>): real
  {
    Sum(ss, Debit)
  }

  /** `running` after the settlements `ss`. */
  function RunningTotal(ss: seq<Settlement>, iso: IsoParser): real
  {
    Sum(ss, ChartedChange(iso))
  }

  /** cumulative_series after walking `ss` in order. */
  function Series(ss: seq<Settlement>, iso: IsoParser): seq<Point>
  {
    if ss == [] then []
    else
      var s := ss[|ss| - 1];
      var earlier := Series(ss[..|ss| - 1], iso);
      if Charted(s, iso) then earlier + [Point(SortKey(iso)(s), RunningTotal(ss, iso))]
      else earlier
  }

  /** The settlement loop of compute_stats, over settlements already in sorted order. */
  method WalkLedger(ordered: seq<Settlement>, iso: IsoParser)
    returns (realized: real, cashIn: real, cashOut: real, series: seq<Point>)
    ensures realized == RealizedPnl(ordered)
    ensures cashIn == CashIn(ordered) && cashOut == CashOut(ordered)
    ensures series == Series(ordered, iso)
  {
    realized, cashIn, cashOut, series := 0.0, 0.0, 0.0, [];
    var running := 0.0;
    for i := 0 to |ordered|
      invariant realized == RealizedPnl(ordered[..i])
      invariant cashIn == CashIn(ordered[..i]) && cashOut == CashOut(ordered[..i])
      invariant running == RunningTotal(ordered[..i], iso)
      invariant series == Series(ordered[..i], iso)
    {
      var s := ordered[i];
      assert ordered[..i + 1][..i] == ordered[..i];
      var cashChange := s.cashChange;
      if cashChange.None? {
        cashChange := s.cashChangeCamel;
      }
      if cashChange.Some? {
        var c := cashChange.value;
        realized := realized + c;
        if c > 0.0 {
          cashIn := cashIn + c;
        } else if c < 0.0 {
          cashOut := cashOut + -c;
        }
        var ts := GetTsMs(s.attrs, iso);
        if ts.Some? {
          running := running + c;
          series := series + [Point(ts.value, running)];
        }
      }
    }
    assert ordered[..|ordered|] == ordered;
  }

  /** cash_in and cash_out are never negative and their difference is realized_pnl. */
  lemma {:induction false} LedgerBalances(ss: seq<Settlement>)
    ensures 0.0 <= CashIn(ss) && 0.0 <= CashOut(ss)
    ensures CashIn(ss) - CashOut(ss) == RealizedPnl(ss)
  {
    SumNonnegative(ss, Credit);
    SumNonnegative(ss, Debit);
    SumDifference(ss, Change, Credit, Debit);
  }

  /** `running` is the sum of the cash changes of the charted settlements. */
  lemma {:induction false} RunningIsChartedSum(ss: seq<Settlement>, iso: IsoParser)
    ensures RunningTotal(ss, iso) == Sum(Filter(ss, IsCharted(iso)), Change)
  {
    SumOfFilter(ss, IsCharted(iso), ChartedChange(iso), Change);
  }

  /** The points drawn for a list of charted settlements, each at its own timestamp. */
  function PointsOf(cs: seq<Settlement>, iso: IsoParser): seq<Point>
  {
    if cs == [] then []
    else PointsOf(cs[..|cs| - 1], iso) + [Point(SortKey(iso)(cs[|cs| - 1]), Sum(cs, Change))]
  }

  /** The series depends on the charted settlements only. */
  lemma {:induction false} SeriesIsPointsOfCharted(ss: seq<Settlement>, iso: IsoParser)
    ensures Series(ss, iso) == PointsOf(Filter(ss, IsCharted(iso)), iso)
  {
    if ss != [] {
      var ss', s := ss[..|ss| - 1], ss[|ss| - 1];
      SeriesIsPointsOfCharted(ss', iso);
      var cs' := Filter(ss', IsCharted(iso));
      if Charted(s, iso) {
        var cs := cs' + [s];
        assert Filter(ss, IsCharted(iso)) == cs;
        assert cs[..|cs| - 1] == cs';
        RunningIsChartedSum(ss, iso);
        var p := Point(SortKey(iso)(s), Sum(cs, Change));
        assert Series(ss, iso) == Series(ss', iso) + [p];
        assert PointsOf(cs, iso) == PointsOf(cs', iso) + [p];
      } else {
        assert Filter(ss, IsCharted(iso)) == cs';
        assert Series(ss, iso) == Series(ss', iso);
      }
    }
  }

  /** The k-th point: the k-th settlement's timestamp and the sum of the first k+1 cash changes. */
  lemma {:induction false} PointsAt(cs: seq<Settlement>, iso: IsoParser)
    ensures |PointsOf(cs, iso)| == |cs|
    ensures forall k :: 0 <= k < |cs| ==> PointsOf(cs, iso)[k] == Point(SortKey(iso)(cs[k]), Sum(cs[..k + 1], Change))
  {
    if cs != [] {
      var cs' := cs[..|cs| - 1];
      PointsAt(cs', iso);
      forall k | 0 <= k < |cs| ensures PointsOf(cs, iso)[k] == Point(SortKey(iso)(cs[k]), Sum(cs[..k + 1], Change)) {
        if k < |cs'| {
          assert cs[..k + 1] == cs'[..k + 1];
        } else {
          assert cs[..k + 1] == cs;
        }
      }
    }
  }

  /**
   * The series has one point per charted settlement, in walk order: the k-th point carries the
   * k-th charted settlement's timestamp and the sum of the first k+1 charted cash changes.
   */
  lemma {:induction false} SeriesPoints(ss: seq<Settlement>, iso: IsoParser)
    ensures |Series(ss, iso)| == |Filter(ss, IsCharted(iso))|
    ensures forall k :: 0 <= k < |Series(ss, iso)| ==>
              var c := Filter(ss, IsCharted(iso))[k];
              GetTsMs(c.attrs, iso).Some?
              && Series(ss, iso)[k] == Point(GetTsMs(c.attrs, iso).value, Sum(Filter(ss, IsCharted(iso))[..k + 1], Change))
  {
    SeriesIsPointsOfCharted(ss, iso);
    PointsAt(Filter(ss, IsCharted(iso)), iso);
    FilterMembers(ss, IsCharted(iso));
  }

  /** The last point's cumulative is the sum of every charted (timestamped) cash change. */
  lemma {:induction false} SeriesEndsAtRunningTotal(ss: seq<Settlement>, iso: IsoParser)
    ensures Series(ss, iso) == [] <==> Filter(ss, IsCharted(iso)) == []
    ensures Series(ss, iso) != [] ==>
              Series(ss, iso)[|Series(ss, iso)| - 1].cumulative == RunningTotal(ss, iso)
  {
    SeriesPoints(ss, iso);
    RunningIsChartedSum(ss, iso);
    var cs := Filter(ss, IsCharted(iso));
    assert cs[..|cs|] == cs;
  }

  /** Walked in key order, the series is in non-decreasing timestamp order. */
  lemma {:induction false} SeriesChronological(ss: seq<Settlement>, iso: IsoParser)
    requires SortedBy(ss, SortKey(iso))
    ensures forall i, j :: 0 <= i < j < |Series(ss, iso)| ==> Series(ss, iso)[i].ts <= Series(ss, iso)[j].ts
  {
    SeriesPoints(ss, iso);
    var cs := Filter(ss, IsCharted(iso));
    FilterSorted(ss, IsCharted(iso), SortKey(iso));
    forall i, j | 0 <= i < j < |Series(ss, iso)| ensures Series(ss, iso)[i].ts <= Series(ss, iso)[j].ts {
      assert SortKey(iso)(cs[i]) <= SortKey(iso)(cs[j]);
    }
  }

  /** Two walks whose charted settlements agree draw the same series. */
  lemma {:induction false} SeriesOfChartedOnly(a: seq<Settlement>, b: seq<Settlement>, iso: IsoParser)
    requires Filter(a, IsCharted(iso)) == Filter(b, IsCharted(iso))
    ensures Series(a, iso) == Series(b, iso)
  {
    SeriesPoints(a, iso);
    SeriesPoints(b, iso);
  }

  /**
   * A settlement that is not charted leaves the series as if it were absent, wherever it stands.
   * It still adds its cash change (nothing, when it has none) to the three totals.
   */
  lemma {:induction false} OffChartSettlement(a: seq<Settlement>, s: Settlement, b: seq<Settlement>, iso: IsoParser)
    requires !Charted(s, iso)
    ensures Series(a + [s] + b, iso) == Series(a + b, iso)
    ensures RealizedPnl(a + [s] + b) == RealizedPnl(a + b) + Change(s)
    ensures CashIn(a + [s] + b) == CashIn(a + b) + Credit(s)
    ensures CashOut(a + [s] + b) == CashOut(a + b) + Debit(s)
  {
    FilterSkips(a, s, b, IsCharted(iso));
    SeriesOfChartedOnly(a + [s] + b, a + b, iso);
    SumAround(a, s, b, Change);
    SumAround(a, s, b, Credit);
    SumAround(a, s, b, Debit);
  }

  /** A settlement with neither cash-change attribute contributes nothing at all. */
  lemma {:induction false} SkippedSettlement(a: seq<Settlement>, s: Settlement, b: seq<Settlement>, iso: IsoParser)
    requires s.cashChange.None? && s.cashChangeCamel.None?
    ensures Series(a + [s] + b, iso) == Series(a + b, iso)
    ensures RealizedPnl(a + [s] + b) == RealizedPnl(a + b)
    ensures CashIn(a + [s] + b) == CashIn(a + b) && CashOut(a + [s] + b) == CashOut(a + b)
  {
    OffChartSettlement(a, s, b, iso);
  }

  /** The client-side lookback test of the settlement fetch: a timestamp at or after `minTs`. */
  function InLookback(iso: IsoParser, minTs: int): Settlement -> bool
  {
    (s: Settlement) => GetTsMs(s.attrs, iso).Some? && GetTsMs(s.attrs, iso).value >= minTs
  }

  /**
   * The settlements the fetch keeps, in arrival order. Each has a timestamp, so none of them
   * sorts by the missing-timestamp default.
   */
  function WithinLookback(ss: seq<Settlement>, minTs: int, iso: IsoParser): (r: seq<Settlement>)
    ensures forall i :: 0 <= i < |r| ==>
              GetTsMs(r[i].attrs, iso).Some? && SortKey(iso)(r[i]) == GetTsMs(r[i].attrs, iso).value >= minTs
    ensures forall i :: 0 <= i < |ss| && GetTsMs(ss[i].attrs, iso).Some? && GetTsMs(ss[i].attrs, iso).value >= minTs ==>
              ss[i] in r
    ensures forall i :: 0 <= i < |r| ==> r[i] in ss
  {
    FilterMembers(ss, InLookback(iso, minTs));
    Filter(ss, InLookback(iso, minTs))
  }

  /**
   * The fetch keeps arrival order: filtering a list built as `a`, then `x`, then `b` gives the
   * kept part of `a`, then `x` if it is kept, then the kept part of `b`. This order is what the
   * stable sort later falls back on for equal timestamps.
   */
  lemma {:induction false} LookbackKeepsArrivalOrder(a: seq<Settlement>, x: Settlement, b: seq<Settlement>, minTs: int, iso: IsoParser)
    ensures WithinLookback(a + [x] + b, minTs, iso) ==
              WithinLookback(a, minTs, iso)
              + (if GetTsMs(x.attrs, iso).Some? && GetTsMs(x.attrs, iso).value >= minTs then [x] else [])
              + WithinLookback(b, minTs, iso)
  {
    var p := InLookback(iso, minTs);
    FilterAppend(a + [x], b, p);
    FilterAppend(a, [x], p);
    FilterSingleton(x, p);
  }

  /** After the lookback filter, every settlement with a cash change gets a point on the curve. */
  lemma {:induction false} LookbackChartsAllKept(ss: seq<Settlement>, minTs: int, iso: IsoParser)
    ensures var kept := WithinLookback(ss, minTs, iso);
            forall i :: 0 <= i < |kept| ==> (Charted(kept[i], iso) <==> CashChange(kept[i]).Some?)
  {
  }
}
