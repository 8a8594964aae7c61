/**
 * generate_summary_json without its I/O: the open-position cents summed over event positions,
 * the account figures, the TOTAL_DEPOSITS setting, and the net-profit / unrealized / percent
 * composition on top of compute_stats.
 */
module Snapshot {
  import opened Wrappers
  import opened Timestamps
  import opened CashFlow
  import opened Ledger
  import opened Stats
  import opened Seqs
  import opened StableSort

  /** The two dollar strings of one event position; None when absent or None. */
  datatype EventPosition = EventPosition(exposureDollars: Option<string>, totalCostDollars: Option<string>)

  /** `int(round(float(text) * 100))`, or None where that raises. Not modelled; passed in. */
  type CentsParser = string -> Option<int>

  /** `float(text)`, or None where that raises. Not modelled; passed in. */
  type RealParser = string -> Option<real>

  /** The deposits assumed when TOTAL_DEPOSITS is unset, empty or unparsable. */
  const DEFAULT_DEPOSITS: real := 40.0

  /** At or below this many dollars of exposure there are no open positions. */
  const NO_POSITION_EPSILON: real := 0.000001

  /** Python truthiness of an optional string: present and not empty. */
  predicate Truthy(text: Option<string>)
  {
    text.Some? && text.value != ""
  }

  /** add_dollars: the cents one dollar string adds; nothing when it is empty, absent or unparsable. */
  function DollarCents(text: Option<string>, parse: CentsParser): int
  {
    if Truthy(text) then parse(text.value).GetOr(0) else 0
  }

  /** One event position: its exposure when that string is non-empty, else its total cost. */
  function PositionCents(ep: EventPosition, parse: CentsParser): int
  {
    if Truthy(ep.exposureDollars) then DollarCents(ep.exposureDollars, parse)
    else DollarCents(ep.totalCostDollars, parse)
  }

  function TotalPositionCents(eps: seq<EventPosition>, parse: CentsParser): int
  {
    if eps == [] then 0
    else TotalPositionCents(eps[..|eps| - 1], parse) + PositionCents(eps[|eps| - 1], parse)
  }

  /** positions_cents: nothing when the positions could not be fetched or listed none. */
  function PositionsTotal(positions: Option<seq<EventPosition>>, parse: CentsParser): int
  {
    match positions
    case None => 0
    case Some(eps) => TotalPositionCents(eps, parse)
  }

  /**
   * The fallback rule: a non-empty exposure string is used even when it does not parse (and then
   * adds nothing), so the total cost matters only when the exposure is absent or empty.
   */
  lemma {:induction false} ExposureFallback(e: Option<string>, t: Option<string>, t': Option<string>, parse: CentsParser)
    ensures Truthy(e) ==> PositionCents(EventPosition(e, t), parse) == PositionCents(EventPosition(e, t'), parse)
    ensures Truthy(e) && parse(e.value).None? ==> PositionCents(EventPosition(e, t), parse) == 0
    ensures !Truthy(e) ==> PositionCents(EventPosition(e, t), parse) == PositionCents(EventPosition(None, t), parse)
    ensures !Truthy(t) && !Truthy(e) ==> PositionCents(EventPosition(e, t), parse) == 0
  {
  }

  /** Summing page by page gives the same total. */
  lemma {:induction false} TotalPositionCentsAppend(a: seq<EventPosition>, b: seq<EventPosition>, parse: CentsParser)
    ensures TotalPositionCents(a + b, parse) == TotalPositionCents(a, parse) + TotalPositionCents(b, parse)
  {
    if b == [] {
      assert a + b == a;
    } else {
      var b' := b[..|b| - 1];
      assert (a + b)[..|a + b| - 1] == a + b';
      TotalPositionCentsAppend(a, b', parse);
    }
  }

  /** When no event position adds negative cents, the total is never negative. */
  lemma {:induction false} TotalPositionCentsNonnegative(eps: seq<EventPosition>, parse: CentsParser)
    requires forall ep | ep in eps :: 0 <= PositionCents(ep, parse)
    ensures 0 <= TotalPositionCents(eps, parse)
  {
    if eps != [] {
      var init := eps[..|eps| - 1];
      assert forall ep | ep in init :: ep in eps;
      TotalPositionCentsNonnegative(init, parse);
      assert eps[|eps| - 1] in eps;
    }
  }

  /** The position loop of generate_summary_json. */
  method SumPositionCents(positions: Option<seq<EventPosition>>, parse: CentsParser) returns (cents: int)
    ensures cents == PositionsTotal(positions, parse)
  {
    cents := 0;
    if positions.Some? {
      var eps := positions.value;
      for i := 0 to |eps|
        invariant cents == TotalPositionCents(eps[..i], parse)
      {
        assert eps[..i + 1][..i] == eps[..i];
        var exposure := eps[i].exposureDollars;
        var chosen := if Truthy(exposure) then exposure else eps[i].totalCostDollars;
        if Truthy(chosen) {
          var parsed := parse(chosen.value);
          if parsed.Some? {
            cents := cents + parsed.value;
          }
        }
      }
      assert eps[..|eps|] == eps;
    }
  }

  /** The `account` block of the summary. */
  datatype Account = Account(cashCents: int, positionsCents: int, cash: real, positionsValue: real, portfolioTotal: real)

  /** `balance or 0`, and the dollar figures derived from the two cent amounts. */
  function AccountOf(balance: Option<int>, positionsCents: int): (a: Account)
    ensures a.cashCents == balance.GetOr(0) && a.positionsCents == positionsCents
    ensures a.cash * 100.0 == a.cashCents as real
    ensures a.positionsValue * 100.0 == positionsCents as real
    ensures a.portfolioTotal == a.cash + a.positionsValue
  {
    var cashCents := balance.GetOr(0);
    Account(cashCents, positionsCents, cashCents as real / 100.0, positionsCents as real / 100.0,
            (cashCents + positionsCents) as real / 100.0)
  }

  /** The TOTAL_DEPOSITS setting: its value when set and parsable, otherwise the default. */
  function TotalDeposits(setting: Option<string>, parse: RealParser): (d: real)
    ensures Truthy(setting) && parse(setting.value).Some? ==> d == parse(setting.value).value
    ensures d == DEFAULT_DEPOSITS || (Truthy(setting) && parse(setting.value) == Some(d))
  {
    if Truthy(setting) then parse(setting.value).GetOr(DEFAULT_DEPOSITS) else DEFAULT_DEPOSITS
  }

  /** The `summary` block: compute_stats extended with the deposit-based figures. */
  datatype Summary = Summary(
    account: Account,
    stats: Stats,
    totalDeposits: real,
    netProfit: real,
    netProfitPercent: real,
    unrealizedPnl: real)

  /**
   * The composer: net profit against deposits, the deposit percentage guarded against a zero
   * divisor, and unrealized P&L forced to 0 with no open positions, otherwise what the
   * settlements have not realized of the net profit.
   */
  function Compose(balance: Option<int>, positionsCents: int, deposits: real, stats: Stats): (r: Summary)
    ensures r.account == AccountOf(balance, positionsCents) && r.stats == stats && r.totalDeposits == deposits
    ensures r.netProfit == r.account.cash + r.account.positionsValue - deposits
    ensures r.account.positionsValue <= NO_POSITION_EPSILON ==> r.unrealizedPnl == 0.0
    ensures r.account.positionsValue > NO_POSITION_EPSILON ==> r.unrealizedPnl + stats.realizedPnl == r.netProfit
    ensures deposits > 0.0 ==> r.netProfitPercent * deposits == r.netProfit
    ensures deposits <= 0.0 ==> r.netProfitPercent == 0.0
  {
    var account := AccountOf(balance, positionsCents);
    var netProfit := account.portfolioTotal - deposits;
    var unrealized := if account.positionsValue <= NO_POSITION_EPSILON then 0.0 else netProfit - stats.realizedPnl;
    var percent := if deposits > 0.0 then netProfit / deposits else 0.0;
    Summary(account, stats, deposits, netProfit, percent, unrealized)
  }

  /** Position cents are whole, so the epsilon test is exactly "no positive exposure". */
  lemma {:induction false} NoPositionsIffNoCents(balance: Option<int>, positionsCents: int)
    ensures AccountOf(balance, positionsCents).positionsValue <= NO_POSITION_EPSILON <==> positionsCents <= 0
  {
    var v := AccountOf(balance, positionsCents).positionsValue;
    if positionsCents >= 1 {
      assert v * 100.0 >= 1.0;
    }
  }

  /**
   * With no open positions unrealized P&L is 0 whatever the ledger says, even where net profit and
   * realized P&L disagree, and the net profit is what the cash balance is above the deposits.
   */
  lemma {:induction false} FlatAccountIsAllRealized(balance: Option<int>, positionsCents: int, deposits: real, stats: Stats)
    requires positionsCents <= 0
    ensures Compose(balance, positionsCents, deposits, stats).unrealizedPnl == 0.0
    ensures positionsCents == 0 ==>
              Compose(balance, positionsCents, deposits, stats).netProfit == balance.GetOr(0) as real / 100.0 - deposits
  {
    NoPositionsIffNoCents(balance, positionsCents);
  }

  /** generate_summary_json: fetch results in, summary out. */
  method GenerateSummary(
    balance: Option<int>, positions: Option<seq<EventPosition>>,
    fills: seq<Fill>, settlements: seq<Settlement>, depositsSetting: Option<string>,
    iso: IsoParser, parseCents: CentsParser, parseReal: RealParser)
    returns (r: Summary)
    ensures r == Compose(balance, PositionsTotal(positions, parseCents), TotalDeposits(depositsSetting, parseReal),
                         StatsOf(fills, settlements, iso))
    ensures StatsInvariants(r.stats, fills, settlements, iso)
    ensures r.account.positionsCents <= 0 ==> r.unrealizedPnl == 0.0
  {
    var positionsCents := SumPositionCents(positions, parseCents);
    var stats := ComputeStats(fills, settlements, iso);
    var deposits := TotalDeposits(depositsSetting, parseReal);
    r := Compose(balance, positionsCents, deposits, stats);
    NoPositionsIffNoCents(balance, positionsCents);
  }

  /**
   * A worked example: one buy of 10 at 0.40, one settlement of +5.00, a 45.00 cash balance with
   * no open positions, and 40.00 deposited.
   */
  lemma {:induction false} WorkedExample(iso: IsoParser, parseCents: CentsParser)
    ensures var fill := Fill(Some(10), None, Some(0.4), Some("Buy"));
            var settlement := Settlement(map["settled_time" := IntV(1_700_000_000)], Some(5.0), None);
            var r := Compose(Some(4500), PositionsTotal(None, parseCents), 40.0, StatsOf([fill], [settlement], iso));
            && r.stats.totalInvested == 4.0 && r.stats.reinvested == 0.0 && r.stats.cashInvested == 4.0
            && r.stats.realizedPnl == 5.0 && r.stats.returnRate == 1.25
            && r.netProfit == 5.0 && r.unrealizedPnl == 0.0 && r.netProfitPercent == 0.125
  {
    var fill := Fill(Some(10), None, Some(0.4), Some("Buy"));
    var settlement := Settlement(map["settled_time" := IntV(1_700_000_000)], Some(5.0), None);
    assert Lower("Buy") == "buy";
    assert SideOf(fill) == Buy;
    SumSingleton(fill, BoughtNotional);
    SumSingleton(fill, SoldNotional);
    SumSingleton(settlement, Change);
    assert [settlement][..0] == [];
    assert Sort([settlement], SortKey(iso)) == [settlement];
    NoPositionsIffNoCents(Some(4500), 0);
  }
}
