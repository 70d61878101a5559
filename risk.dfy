/**
 * Risk scoring of a projected timeline. Cash risk follows the lowest
 * projected balance, budget risk follows the effective amount, and the
 * overall risk is the larger of the two. Every score is 25 (low),
 * 75 (medium) or 100 (high).
 */
module Risk {
  import opened Timeline

  const Low: int := 25
  const Medium: int := 75
  const High: int := 100

  /** Effective amounts above this cap are a budget risk (`payrollCap`). */
  const PayrollCap: real := 350000.0

  /** Fraction of the initial cash below which the cash position is a medium risk. */
  const LowCashFraction: real := 0.2

  /** The balance below which cash risk is at least medium: 200,000. */
  const LowCashThreshold: real := InitialCash * LowCashFraction

  predicate IsScore(s: int) {
    s == Low || s == Medium || s == High
  }

  /** A real number or positive infinity, the minimum of no numbers at all. */
  datatype Extended = Finite(value: real) | Infinity

  /** `m < x`; infinity is below no real number. */
  predicate Below(m: Extended, x: real) {
    m.Finite? && m.value < x
  }

  /** The lowest balance of a timeline, infinity for an empty one. */
  function MinBalance(samples: seq<Sample>): (m: Extended)
    ensures m == Infinity <==> samples == []
    ensures m.Finite? ==> exists i :: 0 <= i < |samples| && samples[i].balance == m.value
    ensures m.Finite? ==> forall i :: 0 <= i < |samples| ==> m.value <= samples[i].balance
  {
    if samples == [] then Infinity
    else
      var rest := MinBalance(samples[1..]);
      if rest.Finite? && rest.value < samples[0].balance then rest else Finite(samples[0].balance)
  }

  function CashRisk(minBalance: Extended): int {
    if Below(minBalance, 0.0) then High
    else if Below(minBalance, LowCashThreshold) then Medium
    else Low
  }

  function BudgetRisk(amount: real): int {
    if amount > PayrollCap then High else Low
  }

  function Max(a: int, b: int): int {
    if a < b then b else a
  }

  datatype Assessment = Assessment(cash: int, budget: int, overall: int)

  /** The risk assessment of a projected timeline and an effective amount. */
  function Assess(projected: seq<Sample>, amount: real): (r: Assessment)
    ensures IsScore(r.cash) && IsScore(r.budget) && IsScore(r.overall)
    ensures r.cash <= r.overall && r.budget <= r.overall
    ensures r.overall == r.cash || r.overall == r.budget
    ensures r.budget == (if amount > PayrollCap then High else Low)
  {
    var cash := CashRisk(MinBalance(projected));
    var budget := BudgetRisk(amount);
    Assessment(cash, budget, Max(cash, budget))
  }

  /**
   * Cash risk in terms of the balances themselves: high exactly when some
   * balance is negative, medium exactly when none is negative and some is
   * below the threshold, low exactly when every balance is at or above the
   * threshold, which an empty timeline satisfies.
   */
  lemma CashRiskByBalances(projected: seq<Sample>, amount: real)
    ensures var cash := Assess(projected, amount).cash;
      && (cash == High <==> exists i :: 0 <= i < |projected| && projected[i].balance < 0.0)
      && (cash == Medium <==>
            (forall i :: 0 <= i < |projected| ==> projected[i].balance >= 0.0)
            && exists i :: 0 <= i < |projected| && projected[i].balance < LowCashThreshold)
      && (cash == Low <==> forall i :: 0 <= i < |projected| ==> projected[i].balance >= LowCashThreshold)
  {
  }
}
