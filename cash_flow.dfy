/**
 * The first loop of compute_stats: each fill's notional goes to "invested" when its action is
 * "buy" and to "cash generated" when it is "sell", ignoring case; then the reinvested and
 * net-new-cash split.
 */
module CashFlow {
  import opened Wrappers
  import opened Seqs

  /**
   * The attributes compute_stats reads off a fill. None is an absent or None attribute, except
   * for `count`, where None means absent (its default is 0).
   */
  datatype Fill = Fill(size: Option<int>, count: Option<int>, price: Option<real>, action: Option<string>)

  datatype Side = Buy | Sell | Ignored

  function LowerChar(c: char): char
  {
    if 'A' <= c <= 'Z' then (c as int + 32) as char else c
  }

  /** str.lower() on ASCII letters. */
  function Lower(s: string): (r: string)
    ensures |r| == |s|
    ensures forall i :: 0 <= i < |s| ==> r[i] == LowerChar(s[i])
  {
    if s == [] then [] else [LowerChar(s[0])] + Lower(s[1..])
  }

  /** `s` is `word` (given in lower case) up to the case of each letter. */
  ghost predicate SpellsIgnoringCase(s: string, word: string)
  {
    && |s| == |word|
    && forall i :: 0 <= i < |s| ==> s[i] == word[i] || s[i] as int + 32 == word[i] as int
  }

  /** `(getattr(f, "action", "") or "").lower()` compared with "buy" and "sell". */
  function SideOf(f: Fill): Side
  {
    var action := Lower(f.action.GetOr(""));
    if action == "buy" then Buy else if action == "sell" then Sell else Ignored
  }

  /** `size`, or `count` when `size` is None, or 0 when neither is there. */
  function Quantity(f: Fill): int
  {
    match f.size
    case Some(n) => n
    case None => f.count.GetOr(0)
  }

  /** `float(size) * price`, a missing or None price reading as 0. */
  function Notional(f: Fill): real
  {
    Quantity(f) as real * f.price.GetOr(0.0)
  }

  function BoughtNotional(f: Fill): real
  {
    if SideOf(f) == Buy then Notional(f) else 0.0
  }

  function SoldNotional(f: Fill): real
  {
    if SideOf(f) == Sell then Notional(f) else 0.0
  }

  /** total_invested */
  function TotalInvested(fills: seq<Fill>): real
  {
    Sum(fills, BoughtNotional)
  }

  /** total_cash_generated */
  function TotalCashGenerated(fills: seq<Fill>): real
  {
    Sum(fills, SoldNotional)
  }

  /** `min(total_invested, total_cash_generated)`: the buying funded by selling. */
  function Reinvested(invested: real, generated: real): (r: real)
    ensures r <= invested && r <= generated
    ensures r == invested || r == generated
  {
    if invested <= generated then invested else generated
  }

  /** `total_invested - reinvested`: the excess of buying over selling, never negative. */
  function CashInvested(invested: real, generated: real): (c: real)
    ensures 0.0 <= c
    ensures 0.0 <= invested && 0.0 <= generated ==> c <= invested
    ensures c == if invested > generated then invested - generated else 0.0
  {
    invested - Reinvested(invested, generated)
  }

  /** The fill loop of compute_stats. */
  method AggregateFills(fills: seq<Fill>) returns (invested: real, generated: real)
    ensures invested == TotalInvested(fills)
    ensures generated == TotalCashGenerated(fills)
  {
    invested, generated := 0.0, 0.0;
    for i := 0 to |fills|
      invariant invested == TotalInvested(fills[..i])
      invariant generated == TotalCashGenerated(fills[..i])
    {
      var f := fills[i];
      var size := f.size;
      if size.None? {
        size := Some(f.count.GetOr(0));
      }
      var price := f.price.GetOr(0.0);
      var cost := size.value as real * price;
      var action := Lower(f.action.GetOr(""));
      assert fills[..i + 1][..i] == fills[..i];
      if action == "buy" {
        invested := invested + cost;
      } else if action == "sell" {
        generated := generated + cost;
      }
    }
    assert fills[..|fills|] == fills;
  }

  /**
   * One more fill: a buy adds its notional to the invested total only, a sell to the generated
   * total only, and any other action to neither.
   */
  lemma {:induction false} FillContribution(fills: seq<Fill>, f: Fill)
    ensures SideOf(f) == Buy ==>
              (TotalInvested(fills + [f]) == TotalInvested(fills) + Notional(f)
               && TotalCashGenerated(fills + [f]) == TotalCashGenerated(fills))
    ensures SideOf(f) == Sell ==>
              (TotalInvested(fills + [f]) == TotalInvested(fills)
               && TotalCashGenerated(fills + [f]) == TotalCashGenerated(fills) + Notional(f))
    ensures SideOf(f) == Ignored ==>
              (TotalInvested(fills + [f]) == TotalInvested(fills)
               && TotalCashGenerated(fills + [f]) == TotalCashGenerated(fills))
  {
    SumAppend(fills, [f], BoughtNotional);
    SumAppend(fills, [f], SoldNotional);
    SumSingleton(f, BoughtNotional);
    SumSingleton(f, SoldNotional);
  }

  /** The action is matched without regard to case, and only the exact words count. */
  lemma {:induction false} SideIgnoresCase(f: Fill)
    ensures SideOf(f) == Buy <==> f.action.Some? && SpellsIgnoringCase(f.action.value, "buy")
    ensures SideOf(f) == Sell <==> f.action.Some? && SpellsIgnoringCase(f.action.value, "sell")
  {
    var a := f.action.GetOr("");
    LowerMatches(a, "buy");
    LowerMatches(a, "sell");
  }

  lemma {:induction false} LowerMatches(s: string, word: string)
    requires forall i :: 0 <= i < |word| ==> 'a' <= word[i] <= 'z'
    requires word != []
    ensures Lower(s) == word <==> SpellsIgnoringCase(s, word)
  {
    if SpellsIgnoringCase(s, word) {
      assert forall i :: 0 <= i < |s| ==> Lower(s)[i] == word[i];
    }
  }

  /** The totals do not depend on the order the fills arrive in. */
  lemma {:induction false} TotalsIgnoreOrder(a: seq<Fill>, b: seq<Fill>)
    requires multiset(a) == multiset(b)
    ensures TotalInvested(a) == TotalInvested(b)
    ensures TotalCashGenerated(a) == TotalCashGenerated(b)
  {
    SumPermutation(a, b, BoughtNotional);
    SumPermutation(a, b, SoldNotional);
  }

  /** With non-negative quantities and prices both totals are non-negative. */
  lemma {:induction false} TotalsNonnegative(fills: seq<Fill>)
    requires forall f | f in fills :: 0 <= Quantity(f) && 0.0 <= f.price.GetOr(0.0)
    ensures 0.0 <= TotalInvested(fills) && 0.0 <= TotalCashGenerated(fills)
  {
    SumNonnegative(fills, BoughtNotional);
    SumNonnegative(fills, SoldNotional);
  }
}
