/**
 * Projection of one normalised transaction onto a timeline: every sample
 * dated on the posting date loses the effective amount, every other sample
 * is kept. A posting date that no sample carries changes nothing.
 */
module Impact {
  import opened Calendar
  import opened Timeline

  /** A sample after posting: reduced by the amount when dated on the posting date. */
  function Post(row: Sample, postingDate: Option<Day>, amount: real): Sample {
    if Some(row.date) == postingDate then row.(balance := row.balance - amount) else row
  }

  /** The projected timeline, sample by sample in the baseline's order. */
  function Project(samples: seq<Sample>, postingDate: Option<Day>, amount: real): (r: seq<Sample>)
    ensures |r| == |samples|
    ensures forall i :: 0 <= i < |r| ==> r[i].date == samples[i].date
    ensures forall i :: 0 <= i < |r| && Some(samples[i].date) == postingDate ==>
      r[i].balance == samples[i].balance - amount
    ensures forall i :: 0 <= i < |r| && Some(samples[i].date) != postingDate ==> r[i] == samples[i]
  {
    if samples == [] then []
    else [Post(samples[0], postingDate, amount)] + Project(samples[1..], postingDate, amount)
  }

  /** A posting date that no sample carries (or an empty one) leaves the timeline as it was. */
  lemma ProjectNoMatch(samples: seq<Sample>, postingDate: Option<Day>, amount: real)
    requires forall i :: 0 <= i < |samples| ==> Some(samples[i].date) != postingDate
    ensures Project(samples, postingDate, amount) == samples
  {
  }

  /** Sum of all balances of a timeline. */
  function Total(samples: seq<Sample>): real {
    if samples == [] then 0.0 else samples[0].balance + Total(samples[1..])
  }

  /**
   * On a timeline whose dates strictly increase, a posting date carried by
   * sample k changes that sample alone, by exactly the amount.
   */
  lemma ProjectSingle(samples: seq<Sample>, postingDate: Option<Day>, amount: real, k: nat)
    requires forall i, j :: 0 <= i < j < |samples| ==> samples[i].date < samples[j].date
    requires k < |samples| && postingDate == Some(samples[k].date)
    ensures Project(samples, postingDate, amount)
      == samples[k := Sample(samples[k].date, samples[k].balance - amount)]
  {
  }

  /** Replacing one sample changes the total by the difference of the two balances. */
  lemma {:induction false} TotalUpdate(samples: seq<Sample>, k: nat, x: Sample)
    requires k < |samples|
    ensures Total(samples[k := x]) == Total(samples) - samples[k].balance + x.balance
  {
    if k > 0 {
      TotalUpdate(samples[1..], k - 1, x);
      assert samples[k := x][1..] == samples[1..][k - 1 := x];
    }
  }

  /**
   * On a timeline whose dates strictly increase, the projection lowers the
   * total of all balances by the amount when some sample carries the
   * posting date, and leaves it unchanged otherwise.
   */
  lemma ProjectTotal(samples: seq<Sample>, postingDate: Option<Day>, amount: real)
    requires forall i, j :: 0 <= i < j < |samples| ==> samples[i].date < samples[j].date
    ensures (exists k :: 0 <= k < |samples| && Some(samples[k].date) == postingDate) ==>
      Total(Project(samples, postingDate, amount)) == Total(samples) - amount
    ensures (forall k :: 0 <= k < |samples| ==> Some(samples[k].date) != postingDate) ==>
      Total(Project(samples, postingDate, amount)) == Total(samples)
  {
    if k :| 0 <= k < |samples| && Some(samples[k].date) == postingDate {
      ProjectSingle(samples, postingDate, amount, k);
      TotalUpdate(samples, k, Sample(samples[k].date, samples[k].balance - amount));
    } else {
      ProjectNoMatch(samples, postingDate, amount);
    }
  }
}
