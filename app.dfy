/**
 * The analyzer's state: the draft being edited, the fringe shown for it,
 * the baseline timeline, the last projected timeline and the last risk
 * assessment. Field edits keep the displayed fringe in step with the
 * draft; a simulation normalises the draft, projects it onto the baseline
 * and scores the projection.
 */
module App {
  import opened Calendar
  import opened Timeline
  import opened Transactions
  import opened Impact
  import opened Risk

  /** First day of the baseline the analyzer starts with: 2025-05-01. */
  const ShippedStart: Day := DayNumber(2025, 5, 1)

  /** Last day of the baseline the analyzer starts with: 2025-07-31. */
  const ShippedEnd: Day := DayNumber(2025, 7, 31)

  /** The day numbers of the dates this module refers to. */
  lemma DayNumbers()
    ensures BiWeeklyPayDate == 20112 && MonthEndPayDate == 20119
    ensures ShippedStart == 20209 && ShippedEnd == 20300
    ensures DayNumber(2025, 5, 10) == 20218 && DayNumber(2025, 6, 9) == 20248
  {
  }

  class Analyzer {
    var tx: Tx
    var fringe: real
    var simData: seq<Sample>
    var impactData: seq<Sample>
    var risk: Assessment

    /** The displayed fringe always belongs to the current draft. */
    predicate Valid()
      reads this
    {
      fringe == DisplayedFringe(tx)
    }

    /**
     * The initial state: the empty purchase draft, no fringe, the
     * baseline from 2025-05-01 to 2025-07-31 generated with the given
     * drifts, no projection yet and all risk scores 0.
     */
    constructor (drift: seq<real>)
      requires StepCount(ShippedStart, ShippedEnd) <= |drift|
      ensures Valid()
      ensures tx == InitialTx && fringe == 0.0
      ensures simData == Baseline(ShippedStart, ShippedEnd, drift)
      ensures impactData == [] && risk == Assessment(0, 0, 0)
    {
      var samples := GenSampleData(ShippedStart, ShippedEnd, drift);
      tx := InitialTx;
      fringe := 0.0;
      simData := samples;
      impactData := [];
      risk := Assessment(0, 0, 0);
    }

    /**
     * One field edit. The draft takes the new value of the edited field.
     * Choosing Payroll as the type shows 46% of the current amount,
     * choosing another type shows no fringe, a new amount on a payroll
     * draft shows 46% of that amount, and any other edit leaves the fringe.
     */
    method HandleChange(e: Edit)
      requires Valid()
      modifies this`tx, this`fringe
      ensures Valid()
      ensures tx == ApplyEdit(old(tx), e)
      ensures e.SetKind? && e.newKind == Payroll ==> fringe == old(tx).amount * FringeRate
      ensures e.SetKind? && e.newKind != Payroll ==> fringe == 0.0
      ensures e.SetAmount? && old(tx).kind == Payroll ==> fringe == e.newAmount * FringeRate
      ensures !e.SetKind? && !(e.SetAmount? && old(tx).kind == Payroll) ==> fringe == old(fringe)
    {
      var before := tx;
      tx := ApplyEdit(before, e);
      if (before.kind == Payroll || e.SetKind?) && (e.SetAmount? || e.SetKind?) {
        var val := if e.SetAmount? then e.newAmount else before.amount;
        if (before.kind == Payroll && e.SetAmount?) || (e.SetKind? && e.newKind == Payroll) {
          fringe := val * FringeRate;
        } else {
          fringe := 0.0;
        }
      }
    }

    /**
     * One simulation. The projection is the baseline with the normalised
     * transaction posted, the risk is the assessment of that projection and
     * the effective amount. A payroll simulation sets the displayed fringe
     * to 46% of the amount, which it already was, so the draft, the
     * baseline and the displayed fringe stay as they were. When a
     * purchase's terms carry its posting date out of the platform's date
     * range, formatting that date fails and the simulation stops before it
     * stores anything: the last projection and assessment remain.
     */
    method CalcImpact()
      requires Valid()
      modifies this`impactData, this`risk, this`fringe
      ensures Valid()
      ensures tx.kind == Payroll ==> fringe == tx.amount * FringeRate
      ensures fringe == old(fringe)
      ensures PostingDateInRange(tx) ==>
        impactData == Project(simData, Normalize(tx).postingDate, Normalize(tx).amount)
      ensures PostingDateInRange(tx) ==> risk == Assess(impactData, Normalize(tx).amount)
      ensures !PostingDateInRange(tx) ==> impactData == old(impactData) && risk == old(risk)
    {
      var impact := simData;
      var amt := tx.amount;
      var paymentDate := tx.requestDate;
      if tx.kind == Payroll {
        paymentDate := Some(if tx.payCycle == "Bi-Weekly" then BiWeeklyPayDate else MonthEndPayDate);
        amt := amt + amt * FringeRate;
        fringe := tx.amount * FringeRate;
      } else if tx.kind == Purchase && tx.deliveryDate.Some? && tx.paymentTerms.Some? {
        var d := tx.deliveryDate.value + tx.paymentTerms.value;
        if !InDateRange(d) {
          // formatting the date raises a range error, which ends the handler
          return;
        }
        paymentDate := Some(d);
      }
      assert amt == Normalize(tx).amount && paymentDate == Normalize(tx).postingDate;
      impact := Project(impact, paymentDate, amt);
      impactData := impact;

      var minBal := MinBalance(impact);
      var cashRisk := CashRisk(minBal);
      var budgetRisk := BudgetRisk(amt);
      risk := Assessment(cashRisk, budgetRisk, Max(cashRisk, budgetRisk));
    }
  }

  /**
   * Both payroll posting dates lie in January 2025, before the shipped
   * baseline starts, so a payroll simulation on that baseline changes no
   * balance. Its balances stay at or above 740,000, so its cash risk is
   * low and its overall risk is high exactly when the amount with fringe
   * is over the payroll cap.
   */
  lemma PayrollOnShippedBaseline(drift: seq<real>, tx: Tx)
    requires StepCount(ShippedStart, ShippedEnd) <= |drift| && ValidDrift(drift)
    requires tx.kind == Payroll
    ensures var baseline := Baseline(ShippedStart, ShippedEnd, drift);
      var n := Normalize(tx);
      && Project(baseline, n.postingDate, n.amount) == baseline
      && Assess(baseline, n.amount).cash == Low
      && (Assess(baseline, n.amount).overall == High <==> 1.46 * tx.amount > PayrollCap)
  {
    var baseline := Baseline(ShippedStart, ShippedEnd, drift);
    var n := Normalize(tx);
    DayNumbers();
    BaselineDates(ShippedStart, ShippedEnd, drift);
    ProjectNoMatch(baseline, n.postingDate, n.amount);
    BaselineFloor(ShippedStart, ShippedEnd, drift);
    forall i | 0 <= i < |baseline|
      ensures baseline[i].balance >= LowCashThreshold
    {
      assert InitialCash - MaxDrift * i as real >= 740000.0;
    }
    CashRiskByBalances(baseline, n.amount);
  }

  /**
   * A purchase delivered on 2025-05-10 with 30-day terms posts on
   * 2025-06-09, 39 days after the shipped baseline's first sample and so
   * not one of its weekly dates: the simulation leaves the baseline as it
   * was, without error.
   */
  lemma PurchaseOffStepOnShippedBaseline(drift: seq<real>, tx: Tx)
    requires StepCount(ShippedStart, ShippedEnd) <= |drift|
    requires tx.kind == Purchase && tx.deliveryDate == Some(DayNumber(2025, 5, 10)) && tx.paymentTerms == Some(30)
    ensures Normalize(tx).postingDate == Some(DayNumber(2025, 6, 9))
    ensures var baseline := Baseline(ShippedStart, ShippedEnd, drift);
      Project(baseline, Normalize(tx).postingDate, Normalize(tx).amount) == baseline
  {
    var baseline := Baseline(ShippedStart, ShippedEnd, drift);
    DayNumbers();
    BaselineDates(ShippedStart, ShippedEnd, drift);
    forall i | 0 <= i < |baseline|
      ensures Some(baseline[i].date) != Normalize(tx).postingDate
    {
      assert baseline[i].date == ShippedStart + StepDays * i;
    }
    ProjectNoMatch(baseline, Normalize(tx).postingDate, Normalize(tx).amount);
  }
}
