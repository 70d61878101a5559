# Cash Flow Impact Analyzer — verified model of the projection and risk engine

The Cash Flow Impact Analyzer lets an operator describe one pending
transaction (a purchase, a payroll, travel or a contract) and see how it
changes a weekly cash-balance timeline, together with a cash risk, a budget
risk and an overall risk score that gate its approval. This project models
the engine behind that screen, all of it in `src/App.jsx`:

- **Baseline generation** (`Timeline`): `genSampleData` walks from a start
  date to an end date in steps of seven days, sampling the balance, which
  starts at the initial cash of 1,000,000 and drops by a drift in
  [0, 20000) after every sample. `GenSampleData` keeps the loop and is
  proved equal to `Baseline`, about which the date and balance properties
  are proved.
- **Form edits and the fringe** (`Transactions`, `App.Analyzer`): the draft
  `tx` and the displayed payroll `fringe` are fields of the `Analyzer`
  class; `HandleChange` applies one field edit and recomputes the fringe as
  the source does. Its class invariant is that the displayed fringe is
  always 46% of the amount of a payroll draft and 0 for any other draft.
- **Normalisation** (`Transactions.Normalize`): the effective amount
  (amount × 1.46 for payroll) and the posting date (the pay-cycle policy
  date for payroll, delivery date plus payment terms for a purchase with
  both, the request date otherwise).
- **Projection** (`Impact.Project`): the map that subtracts the effective
  amount from every sample dated on the posting date.
- **Risk scoring** (`Risk.Assess`): cash risk from the lowest projected
  balance, budget risk from the effective amount against the payroll cap of
  350,000, overall risk as their maximum.
- **A simulation** (`App.Analyzer.CalcImpact`): the imperative sequence of
  `calcImpact`, proved to leave the projection and the assessment that the
  functions above define.

Modelling choices:

- Dates are day numbers in UTC, counted from 1970-01-01 and negative
  before it, over the whole proleptic Gregorian calendar
  (`Calendar.DayNumber`). The source compares ISO `yyyy-mm-dd` strings for
  equality. For years 0000 to 9999, distinct dates have distinct strings,
  so comparing day numbers is the same test. Moving a date by `n`
  calendar days, forward or, for negative `n`, back, adds `n` to its day
  number (`Calendar.AddDaysNumber`).
  That matches the source when the browser runs in UTC.
- Empty form fields are `None`. An empty amount is the number 0, as the
  source's numeric conversion makes it. The pay cycle stays a string: the
  source only tells "Bi-Weekly" apart, and every other text selects the
  month-end date.
- Amounts are exact `real` numbers, so the 0.46 and 1.46 factors are exact.
- The random drift is a supplied sequence with one value per loop
  iteration; the balance properties assume every drift lies in [0, 20000),
  the range of the source's draw.
- The code has no range, incomplete-draft or empty-timeline errors, always
  steps by seven days, and the model adds no checks of its own. A start
  date after the end date gives an empty timeline; a missing or unmatched
  posting date changes nothing; an empty timeline scores a low cash risk,
  because the minimum of no balances is positive infinity
  (`Risk.Extended`); an unrecognised pay cycle falls back to the month-end
  date.
- The one failure the code can meet is the platform's own: when a
  purchase's payment terms carry its posting date more than 100,000,000
  days from 1970-01-01, formatting that date raises a range error and the
  simulation stops before storing anything. `App.Analyzer.CalcImpact`
  models this: the previous projection and assessment remain
  (`Transactions.PostingDateInRange`, `Calendar.InDateRange`).
- Budget risk compares the effective amount, fringe included, with the
  payroll cap for every transaction type, as the code does.

## Model

| member | source | states |
|---|---|---|
| Calendar.NextDay | src/App.jsx:18 | the date after any Gregorian date, in any year, (within a month, at a month end, at the year end, after 28 or 29 February) has the next day number |
| Calendar.PrevDay | src/App.jsx:63 | the date before any Gregorian date, in any year, has the previous day number |
| Calendar.AddDaysNumber | src/App.jsx:62-64 | moving any date by n calendar days, one day at a time, forward for positive n and back for negative n (negative payment terms), adds n to its day number, which is how a posting date and each weekly step are computed |
| Timeline.GenSampleData | src/App.jsx:9-22 | the generator loop returns exactly `Baseline(start, end, drift)`: one sample per seven days from start, balances from the initial cash down by one drift per step |
| Timeline.StepInRange | src/App.jsx:13-18 | the k-th step date start + 7k passes the loop test `current <= end` exactly when k is below the number of samples |
| Timeline.BaselineDates | src/App.jsx:9-21 | sample i is dated start + 7i, every sample lies within [start, end], the next step date is after end, and start after end gives no samples |
| Timeline.BaselineIncludesEnd | src/App.jsx:13 | the end date is sampled exactly when it is a whole number of weeks after the start |
| Timeline.BaselineIncreasing | src/App.jsx:13-18 | sample dates strictly increase, so no date appears twice |
| Timeline.BalanceNonIncreasing | src/App.jsx:12-19 | over j − i steps the balance does not rise and falls by less than 20000 per step |
| Timeline.BaselineBalances | src/App.jsx:12-19 | the first balance is the initial cash, each next one is the previous less that step's drift, each step drops by less than 20000, and balances never increase |
| Timeline.BaselineFloor | src/App.jsx:12-19 | sample i lies between the initial cash and i × 20000 below it |
| Transactions.ApplyEdit | src/App.jsx:42 | an edit replaces the edited field of the draft and keeps every other field |
| Transactions.Normalize | src/App.jsx:55-65 | the effective amount is the amount plus the displayed fringe (amount × 1.46 for payroll, the raw amount otherwise); payroll posts on 2025-01-24 for "Bi-Weekly" and on 2025-01-31 for any other cycle; a purchase with delivery date and terms posts terms days after delivery; anything else posts on the request date |
| Transactions.NormalizeIgnoresOtherFields | src/App.jsx:55-65 | department, fund type, hire date and payroll date never affect the amount or the posting date |
| Impact.Project | src/App.jsx:66-68 | the projection keeps length, order and every date; a sample dated on the posting date loses exactly the effective amount; every other sample is unchanged |
| Impact.ProjectNoMatch | src/App.jsx:66-68 | when no sample carries the posting date (or it is empty) the projection is the baseline itself, with no error |
| Impact.ProjectTotal | src/App.jsx:66-68 | on a timeline with strictly increasing dates, the projection lowers the total of all balances by exactly the effective amount when a sample carries the posting date, and keeps the total otherwise |
| Impact.ProjectSingle | src/App.jsx:66-68 | on a timeline with strictly increasing dates, a matched posting date changes that one sample, by exactly the amount |
| Risk.MinBalance | src/App.jsx:71 | the minimum is infinity exactly for an empty timeline, and otherwise is a balance of the timeline no greater than any other |
| Risk.Assess | src/App.jsx:71-78 | all three scores are in {25, 75, 100}; the overall score is the larger of cash and budget; budget risk is 100 when the effective amount exceeds 350,000 and 25 otherwise |
| Risk.CashRiskByBalances | src/App.jsx:71-72 | cash risk is 100 exactly when some balance is negative, 75 exactly when none is negative and some is below 200,000, and 25 exactly when all are at least 200,000, including the empty timeline |
| App.Analyzer.constructor | src/App.jsx:29-36 | the analyzer starts with the empty purchase draft, fringe 0, the 2025-05-01 to 2025-07-31 baseline, no projection and risk scores 0 |
| App.Analyzer.HandleChange | src/App.jsx:40-51 | the draft takes the edited value; choosing Payroll shows 46% of the current amount, choosing another type shows 0, a new payroll amount shows 46% of it, any other edit keeps the fringe; the fringe stays that of the draft |
| App.Analyzer.CalcImpact | src/App.jsx:53-79 | a simulation whose posting date is within the platform's date range stores the projection of the normalised draft onto the baseline and its risk assessment; one whose purchase terms push the posting date out of range stops with the last projection and assessment kept; for payroll it sets the fringe to 46% of the amount, which is the fringe already displayed, so the fringe is unchanged |
| App.PayrollOnShippedBaseline | src/App.jsx:57-73 | a payroll simulation on the shipped baseline changes no balance, scores cash risk 25, and scores overall risk 100 exactly when 1.46 × amount exceeds the cap |
| App.PurchaseOffStepOnShippedBaseline | src/App.jsx:61-68 | a purchase delivered 2025-05-10 on 30-day terms posts on 2025-06-09, which is not a weekly date of the shipped baseline, so the simulation changes nothing |

## Left out

- src/GraphConnector.js and `getExcel`: a remote lookup of a spreadsheet through a document-sharing web API with a bearer token; network I/O.
- src/submitApproval.js and `approve`: an HTTP POST of the draft and the decision; network I/O.
- Rendering of the form and the charts, and the `status` and `fileUrl` state: user interface only.
- The random draw of each drift: replaced by a supplied sequence of drifts.
- Floating-point rounding, the numeric conversion of form text (including text that is not a number) and the two-decimal display of the fringe: amounts and terms are exact, already-converted numbers.
- The platform's date objects, time zones and ISO formatting: dates are day numbers; the form's date inputs yield valid dates or nothing, so the conversion error an invalid date would raise is not modelled.
- Timeline.GenSampleData: each step adds exactly seven days, as a browser in UTC computes it. In a zone with daylight saving, a step across the spring clock change lands one UTC day earlier in the source, and later dates stay shifted until the autumn change. No clock change falls inside the shipped May to July baseline in the common northern or southern zones.
- Transactions.Normalize: a purchase's posting date is the exact sum of delivery date and terms, as a browser in UTC computes it. The source parses the delivery date as midnight UTC, adds the terms in local time and formats the result in UTC. In a zone with daylight saving, terms that span the spring clock change therefore post one day earlier in the source: a delivery on 2025-03-01 with 61-day terms posts on 2025-04-30 there and on 2025-05-01 here. Local time is not modelled.
- Transactions.Normalize: for a posting date past year 9999 the source's ISO string has an expanded year, and taking its first ten characters stops distinct dates from having distinct strings; the model keeps distinct day numbers.
- The deferred state updates of the UI framework: each edit and each simulation updates the analyzer's fields at once, and an edit reads the draft as it was before that edit, as the source's handler does.
- The `payrollDate` field: it starts empty and no form control edits it, so no `Edit` changes it.
- Transactions.Normalize: adds a purchase's payment terms to its delivery date without bound; formatting a result beyond the platform's date range raises a range error in the source, which `App.Analyzer.CalcImpact` models and `Normalize` itself does not.
