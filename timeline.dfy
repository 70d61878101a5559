/**
 * The baseline timeline: one cash-balance sample every seven days from a
 * start date up to and including an end date, starting at the initial cash
 * and drifting down by a bounded amount at every step.
 *
 * The source draws each drift with a random number generator; here the
 * drifts are a supplied sequence, one value per loop iteration.
 */
module Timeline {
  import opened Calendar

  /** The cash balance every timeline starts from (`initialCash`). */
  const InitialCash: real := 1000000.0

  /** Days between two consecutive samples. */
  const StepDays: int := 7

  /** Exclusive upper bound of one step's drift. */
  const MaxDrift: real := 20000.0

  datatype Sample = Sample(date: Day, balance: real)

  /** Every drift lies in [0, MaxDrift), the range of the source's random draw. */
  predicate ValidDrift(drift: seq<real>) {
    forall i :: 0 <= i < |drift| ==> 0.0 <= drift[i] < MaxDrift
  }

  /** Number of step dates start, start + 7, ... that are not after end. */
  function StepCount(start: Day, end: Day): nat {
    if start <= end then (end - start) / StepDays + 1 else 0
  }

  /** The balance after i drifts: initial cash less drift[0] .. drift[i-1]. */
  function BalanceAt(drift: seq<real>, i: nat): real
    requires i <= |drift|
  {
    if i == 0 then InitialCash else BalanceAt(drift, i - 1) - drift[i - 1]
  }

  /** The timeline the generator produces, sample by sample. */
  function Baseline(start: Day, end: Day, drift: seq<real>): seq<Sample>
    requires StepCount(start, end) <= |drift|
  {
    seq(StepCount(start, end), i requires 0 <= i < StepCount(start, end) =>
      Sample(start + StepDays * i, BalanceAt(drift, i)))
  }

  /** The k-th step date is within range exactly when k is below StepCount. */
  lemma StepInRange(start: Day, end: Day, k: nat)
    ensures start + StepDays * k <= end <==> k < StepCount(start, end)
  {
  }

  /**
   * Generates the baseline: a sample at `current`, then `current` moves on
   * by seven days and the balance drops by the next drift, while `current`
   * is not after `end`. Each iteration consumes one drift, including the
   * last, whose result is never sampled.
   */
  method GenSampleData(start: Day, end: Day, drift: seq<real>) returns (samples: seq<Sample>)
    requires StepCount(start, end) <= |drift|
    ensures samples == Baseline(start, end, drift)
  {
    samples := [];
    var current := start;
    var bal := InitialCash;
    StepInRange(start, end, 0);
    while current <= end
      invariant |samples| <= StepCount(start, end)
      invariant current == start + StepDays * |samples|
      invariant current <= end <==> |samples| < StepCount(start, end)
      invariant bal == BalanceAt(drift, |samples|)
      invariant samples == Baseline(start, end, drift)[..|samples|]
      decreases end - current
    {
      samples := samples + [Sample(current, bal)];
      current := current + StepDays;
      bal := bal - drift[|samples| - 1];
      StepInRange(start, end, |samples|);
    }
  }

  /**
   * The samples are exactly the step dates from start that are not after
   * end: sample i is dated start + 7i, every sample is in [start, end], and
   * the next step date is past end. With start after end there are none.
   */
  lemma BaselineDates(start: Day, end: Day, drift: seq<real>)
    requires StepCount(start, end) <= |drift|
    ensures var b := Baseline(start, end, drift);
      && (start > end ==> b == [])
      && (forall i :: 0 <= i < |b| ==> b[i].date == start + StepDays * i && start <= b[i].date <= end)
      && start + StepDays * |b| > end
  {
    var b := Baseline(start, end, drift);
    forall i | 0 <= i < |b|
      ensures b[i].date == start + StepDays * i && start <= b[i].date <= end
    {
      StepInRange(start, end, i);
    }
    StepInRange(start, end, |b|);
  }

  /** The end date is sampled exactly when it is a whole number of steps after start. */
  lemma BaselineIncludesEnd(start: Day, end: Day, drift: seq<real>)
    requires StepCount(start, end) <= |drift|
    ensures var b := Baseline(start, end, drift);
      (exists i :: 0 <= i < |b| && b[i].date == end) <==> (start <= end && (end - start) % StepDays == 0)
  {
    var b := Baseline(start, end, drift);
    if start <= end && (end - start) % StepDays == 0 {
      var k := (end - start) / StepDays;
      assert b[k].date == end;
    }
  }

  /** Dates strictly increase along the timeline, so no date occurs twice. */
  lemma BaselineIncreasing(start: Day, end: Day, drift: seq<real>)
    requires StepCount(start, end) <= |drift|
    ensures var b := Baseline(start, end, drift);
      forall i, j :: 0 <= i < j < |b| ==> b[i].date < b[j].date
  {
  }

  /** Each step lowers the balance by that step's drift: by at least 0 and less than MaxDrift. */
  lemma {:induction false} BalanceNonIncreasing(drift: seq<real>, i: nat, j: nat)
    requires ValidDrift(drift)
    requires i <= j <= |drift|
    ensures BalanceAt(drift, i) - MaxDrift * (j - i) as real <= BalanceAt(drift, j) <= BalanceAt(drift, i)
    ensures i < j ==> BalanceAt(drift, i) - MaxDrift * (j - i) as real < BalanceAt(drift, j)
    decreases j - i
  {
    if i < j {
      BalanceNonIncreasing(drift, i, j - 1);
    }
  }

  /**
   * The first balance is the initial cash, each next balance is the
   * previous one less that step's drift, so balances never increase along
   * the timeline and each step drops by less than MaxDrift.
   */
  lemma BaselineBalances(start: Day, end: Day, drift: seq<real>)
    requires StepCount(start, end) <= |drift| && ValidDrift(drift)
    ensures var b := Baseline(start, end, drift);
      && (|b| > 0 ==> b[0].balance == InitialCash)
      && (forall i :: 0 < i < |b| ==> b[i].balance == b[i - 1].balance - drift[i - 1])
      && (forall i :: 0 < i < |b| ==> b[i - 1].balance - MaxDrift < b[i].balance <= b[i - 1].balance)
      && (forall i, j :: 0 <= i <= j < |b| ==> b[j].balance <= b[i].balance)
  {
    var b := Baseline(start, end, drift);
    forall i, j | 0 <= i <= j < |b|
      ensures b[j].balance <= b[i].balance
    {
      BalanceNonIncreasing(drift, i, j);
    }
  }

  /** Sample i lies between the initial cash and i full drifts below it. */
  lemma BaselineFloor(start: Day, end: Day, drift: seq<real>)
    requires StepCount(start, end) <= |drift| && ValidDrift(drift)
    ensures var b := Baseline(start, end, drift);
      forall i :: 0 <= i < |b| ==> InitialCash - MaxDrift * i as real <= b[i].balance <= InitialCash
  {
    var b := Baseline(start, end, drift);
    forall i | 0 <= i < |b|
      ensures InitialCash - MaxDrift * i as real <= b[i].balance <= InitialCash
    {
      BalanceNonIncreasing(drift, 0, i);
    }
  }
}
