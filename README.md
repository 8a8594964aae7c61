# Kalshi portfolio reconciliation, modelled in Dafny

This project models the core of the Kalshi dashboard backend (`backend/kalshi_dashboard.py`).
That core turns an account's fills, settlements, cash balance and open event positions into the
summary the dashboard shows. It has five parts:

- **Timestamps** (`timestamps.dfy`): `get_ts_ms`. It tries five attributes in order and
  returns the first one that converts to epoch milliseconds. An integer above 10^12 is already
  milliseconds and any other integer is seconds. A bool counts as an integer. A float is scaled
  by 1000 and truncated toward zero. A string is ISO-8601 with every `Z` replaced by `+00:00`.
- **Cash flow** (`cash_flow.dfy`): the fill loop of `compute_stats`.
  - Buys add to the invested total and sells to the generated total. The action is matched
    without regard to case.
  - The quantity is `size`, falling back to `count` and then to 0.
  - After the loop come the reinvested and cash-invested figures.
- **Stable sort** (`stable_sort.dfy`) and **Ledger** (`ledger.dfy`): the settlement loop of
  `compute_stats`.
  - Settlements are ordered by `get_ts_ms(s) or 0` with a stable sort.
  - Realized P&L, cash in and cash out cover every settlement with a cash change (`cash_change`,
    falling back to `cashChange`).
  - The cumulative series has one point per settlement that also has a timestamp.
  - The lookback filter of the settlement fetch is modelled here too.
- **Stats** (`stats.dfy`): `compute_stats` as one method, proved equal to a specification
  function. It is also proved to keep the invariants the dashboard relies on.
- **Snapshot** (`snapshot.dfy`): the numeric part of `generate_summary_json`.
  - The open-position cents use the event exposure and fall back to total cost.
  - It computes the account figures and takes the `TOTAL_DEPOSITS` setting, with its default
    of 40.
  - It composes net profit, net-profit percentage and unrealized P&L. Unrealized P&L is forced
    to 0 when there are no open positions.

The methods mirror the source's loops, and each is proved equal to a recursive specification
function. The properties are proved as lemmas about those functions:

- the first-match shape of `get_ts_ms`;
- the per-fill contributions and their case-insensitivity;
- the ledger balance `cash_in - cash_out == realized_pnl`;
- the stable sort is ordered, a permutation and stable, and it is the only sequence with all
  three properties;
- the shape of the cumulative series and its time order;
- arrival-order independence of every scalar;
- the zero-position policy of the composer.

Calls the model cannot see are parameters of the operations that need them:

- `IsoParser` stands for `datetime.fromisoformat(...).timestamp()`;
- `CentsParser` stands for `int(round(float(text) * 100))`;
- `RealParser` stands for `float(text)`.

Each of these returns None where the Python call raises.

Three behaviours of the code worth noting:

- A settlement without a timestamp sorts with key 0. It therefore sorts ahead of every
  settlement with a positive timestamp, behind every one with a negative timestamp, and in
  arrival order among those stamped 0 (`Stats.UntimedSortsAsZero`,
  `Stats.UntimedSortsBehindNegative`).
- Such a settlement still counts towards realized P&L, cash in and cash out. It adds nothing to
  the running total and draws no point, so the last cumulative value follows only the timed
  settlements (`Stats.UntimedCountsButIsNotCharted`).
- The open-position value is not floored at zero. A negative exposure string lowers the
  portfolio total, and the zero-position test treats it as "no positions".

## Model

| member | source | states |
|---|---|---|
| Timestamps.Lookup | backend/kalshi_dashboard.py:43 | a missing attribute reads as None |
| Timestamps.Truncate | backend/kalshi_dashboard.py:49-50 | `int()` of a float truncates toward zero: it is within one of the value, on the side of zero |
| Timestamps.ReplaceZ | backend/kalshi_dashboard.py:53 | `replace("Z", "+00:00")` leaves no `Z`, leaves text without `Z` unchanged and adds five characters per `Z` |
| Timestamps.ReplaceZPiecewise | backend/kalshi_dashboard.py:53 | each `Z` becomes the UTC offset `+00:00`, every other character stays, and the text keeps its order (replacing a concatenation replaces each piece) |
| Timestamps.FirstMillisIsFirstHit | backend/kalshi_dashboard.py:42-57 | the candidate loop returns None exactly when no candidate converts, and otherwise the value of the first candidate that does |
| Timestamps.GetTsMsFirstCandidate | backend/kalshi_dashboard.py:37-57 | get_ts_ms over the five attributes `time`, `ts`, `created_time`, `created_ts`, `settled_time`: None iff all five fail, else the first that converts |
| Timestamps.ToMillisFallsThrough | backend/kalshi_dashboard.py:44-56 | a value moves the search on exactly when it is None, of an unsupported type, or a string the ISO parser rejects |
| Timestamps.NumericMillis | backend/kalshi_dashboard.py:46-50 | an integer above 10^12 is kept, any other integer is multiplied by 1000, a bool is 0 or 1000, and a float is scaled and truncated |
| CashFlow.Lower | backend/kalshi_dashboard.py:196 | `lower()` keeps the length and lower-cases each ASCII letter |
| CashFlow.AggregateFills | backend/kalshi_dashboard.py:187-200 | the fill loop computes the sum of bought notionals and the sum of sold notionals |
| CashFlow.FillContribution | backend/kalshi_dashboard.py:191-200 | one more fill adds its `size` (or `count`, or 0) times its price to the invested total if it is a buy, to the generated total if it is a sell, and to neither otherwise |
| CashFlow.SideIgnoresCase | backend/kalshi_dashboard.py:196-200 | a fill counts as a buy (sell) exactly when its action spells "buy" ("sell") in any mix of case |
| CashFlow.TotalsIgnoreOrder | backend/kalshi_dashboard.py:190-200 | the two totals do not depend on the order of the fills |
| CashFlow.TotalsNonnegative | backend/kalshi_dashboard.py:190-200 | with non-negative quantities and prices both totals are non-negative |
| CashFlow.Reinvested | backend/kalshi_dashboard.py:202 | `min` of the totals: at most each of them and equal to one of them |
| CashFlow.CashInvested | backend/kalshi_dashboard.py:202-203 | invested minus reinvested is never negative, is the excess of buying over selling, and is at most the invested total |
| StableSort.Sort | backend/kalshi_dashboard.py:210 | the sort returns a permutation of its input, ordered by key |
| StableSort.SortStable | backend/kalshi_dashboard.py:210 | settlements with equal keys keep their arrival order |
| StableSort.SortIsTheStableSort | backend/kalshi_dashboard.py:210 | any ordered, stable permutation equals this sort's result, so Python's `sorted` gives the same list |
| Ledger.CashChange | backend/kalshi_dashboard.py:213-215 | `cash_change` is used when present, and `cashChange` exactly when `cash_change` is None; the result is None only when both are absent |
| Ledger.WalkLedger | backend/kalshi_dashboard.py:211-229 | the settlement loop computes realized P&L, cash in, cash out and the cumulative series `Series` defines |
| Ledger.LedgerBalances | backend/kalshi_dashboard.py:219-224 | cash in and cash out are non-negative, and cash in minus cash out is realized P&L |
| Ledger.RunningIsChartedSum | backend/kalshi_dashboard.py:226-228 | `running` is the sum of the cash changes of the settlements that have a timestamp |
| Ledger.SeriesPoints | backend/kalshi_dashboard.py:216-229 | one point per settlement with a cash change and a timestamp, in walk order; the k-th carries that settlement's timestamp and the sum of the first k+1 such cash changes |
| Ledger.SeriesEndsAtRunningTotal | backend/kalshi_dashboard.py:226-229 | the series is empty iff no settlement is charted, and otherwise its last cumulative value is the running total |
| Ledger.SeriesChronological | backend/kalshi_dashboard.py:210-229 | walked in key order, the points are in non-decreasing timestamp order |
| Ledger.SeriesOfChartedOnly | backend/kalshi_dashboard.py:216-229 | two walks with the same charted settlements draw the same series |
| Ledger.OffChartSettlement | backend/kalshi_dashboard.py:216-229 | a settlement without a cash change or timestamp leaves the series as if it were absent, and still adds its change to the three totals |
| Ledger.SkippedSettlement | backend/kalshi_dashboard.py:216-217 | a settlement with neither cash-change attribute changes nothing |
| Ledger.WithinLookback | backend/kalshi_dashboard.py:154-159 | the fetch keeps exactly the settlements with a timestamp at or after the cut-off, none of them missing a timestamp |
| Ledger.LookbackKeepsArrivalOrder | backend/kalshi_dashboard.py:154-159 | the fetch keeps the kept settlements in arrival order: a list split into pieces is filtered piece by piece, and a single settlement is kept exactly when it has a timestamp at or after the cut-off |
| Ledger.LookbackChartsAllKept | backend/kalshi_dashboard.py:154-159 | after the lookback filter, every kept settlement with a cash change gets a point |
| Stats.ReturnRate | backend/kalshi_dashboard.py:231 | realized P&L divided by the invested total when that is positive, 0 otherwise |
| Stats.SortKeepsTotals | backend/kalshi_dashboard.py:210-229 | sorting changes neither the three totals, nor the running total, nor the number of points |
| Stats.StatsOfKeepsInvariants | backend/kalshi_dashboard.py:172-244 | the returned figures satisfy the fill, ledger and series invariants, stated over the inputs as they arrive |
| Stats.ComputeStats | backend/kalshi_dashboard.py:172-244 | compute_stats returns the specified figures and they satisfy those invariants |
| Stats.StatsIgnoreArrivalOrder | backend/kalshi_dashboard.py:172-244 | reordered input gives the same scalars, the same number of points and the same final cumulative value |
| Stats.UntimedSortsAsZero | backend/kalshi_dashboard.py:210 | a settlement without a timestamp sorts ahead of one stamped at 5000 ms |
| Stats.UntimedSortsBehindNegative | backend/kalshi_dashboard.py:210 | a settlement stamped at -5000 ms sorts ahead of the untimed one, and one stamped at 0 ties with it and keeps its arrival order |
| Stats.UntimedCountsButIsNotCharted | backend/kalshi_dashboard.py:212-229 | that settlement counts in realized P&L but draws no point |
| Snapshot.ExposureFallback | backend/kalshi_dashboard.py:270-285 | a non-empty exposure string decides the cents even when it does not parse; the total cost counts only when the exposure is absent or empty |
| Snapshot.TotalPositionCentsAppend | backend/kalshi_dashboard.py:280-285 | the position cents of two batches add up |
| Snapshot.TotalPositionCentsNonnegative | backend/kalshi_dashboard.py:280-285 | when no event position adds negative cents, the position total is not negative |
| Snapshot.SumPositionCents | backend/kalshi_dashboard.py:261-285 | the position loop computes the specified total, 0 when the positions could not be fetched |
| Snapshot.AccountOf | backend/kalshi_dashboard.py:258-296 | a missing balance is 0; the dollar figures are cents over 100; the portfolio is cash plus positions |
| Snapshot.TotalDeposits | backend/kalshi_dashboard.py:308-315 | the setting's value when set and parsable, otherwise 40 |
| Snapshot.Compose | backend/kalshi_dashboard.py:322-333 | net profit is portfolio minus deposits; unrealized P&L is 0 at or below the epsilon and otherwise net profit minus realized P&L; the percentage is net profit over deposits only when deposits are positive |
| Snapshot.NoPositionsIffNoCents | backend/kalshi_dashboard.py:326 | the 1e-6 test holds exactly when the position cents are not positive |
| Snapshot.FlatAccountIsAllRealized | backend/kalshi_dashboard.py:322-329 | with no open positions unrealized P&L is 0, and net profit is the cash balance minus deposits |
| Snapshot.GenerateSummary | backend/kalshi_dashboard.py:250-339 | the summary is the composition of the position total, the deposits setting and compute_stats, and satisfies the stats invariants |
| Snapshot.WorkedExample | backend/kalshi_dashboard.py:187-333 | a buy of 10 at 0.40, a settlement of +5, a 45.00 balance and 40 deposited give invested 4, return rate 1.25, net profit 5, 12.5% and unrealized 0 |

## Left out

- Loading the client, the API calls, the paging loops of the fill and settlement fetches, and the
  file output are left out because they are I/O. The fetched data (balance, positions or their
  absence, fills, settlements, the setting) are inputs of `Snapshot.GenerateSummary`.
- A failing positions call is modelled by its result: `positions` is None and the cents are 0.
  Exception handling as such is not modelled.
- The lookback cut-off `min_ts_ms` comes from the clock, so it is a parameter of `Ledger.WithinLookback`.
  The fill fetch's own lookback filter is not modelled separately.
- `to_dict`, `fills_dict`, `settlements_dict`, `updated_ts`, `generated_at` and `lookback_days` copy
  data into the output and compute nothing, so they are left out.
- Floating point is modelled as exact reals. This leaves out IEEE rounding of the sums, NaN and
  infinities. It also means the portfolio total equals cash plus positions exactly.
- `float()`, `round()` and `datetime.fromisoformat` are parameters. Their parsing rules, the
  time-zone handling of naive datetimes included, are not modelled.
- `str.lower()` is modelled on ASCII letters only. Unicode case mapping is left out.
- Inputs on which the source raises are excluded by the types:
  - a fill whose `count` is present but None;
  - a non-numeric `size` or `price`;
  - a non-string `action`;
  - a `cash_change` that `float()` rejects.
  `Fill` and `Settlement` carry already-typed values, so the fill and settlement loops do not
  model those exceptions.
- `Ledger.Settlement`: a cash change given as a string or an integer is taken as already
  converted by `float()`.
- `Snapshot.TotalPositionCentsAppend`: the position cents are shown to add up batch by batch, but
  no separate order-independence lemma is given for them.
