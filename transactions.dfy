/**
 * The transaction form: its fields, the edits an operator makes to them,
 * the payroll fringe shown beside the form, and the normalisation of a
 * draft into the amount and posting date that a simulation applies.
 */
module Transactions {
  import opened Calendar

  datatype TxType = Purchase | Payroll | Travel | Contract

  /**
   * A draft transaction as the form holds it. Empty date and number fields
   * are None; an empty amount reads as 0. The pay cycle is kept as the text
   * the form submits, because only "Bi-Weekly" is told apart.
   */
  datatype Tx = Tx(
    kind: TxType,
    amount: real,
    requestDate: Option<Day>,
    deliveryDate: Option<Day>,
    paymentTerms: Option<int>,
    department: string,
    fundType: string,
    hireDate: Option<Day>,
    payCycle: string,
    payrollDate: Option<Day>)

  /** The draft the form starts with. */
  const InitialTx: Tx := Tx(Purchase, 0.0, None, None, None, "", "", None, "Bi-Weekly", None)

  /** Payroll overhead (benefits and taxes) as a fraction of the payroll amount. */
  const FringeRate: real := 0.46

  /** Posting date policy for a bi-weekly payroll: 2025-01-24. */
  const BiWeeklyPayDate: Day := DayNumber(2025, 1, 24)

  /** Posting date policy for any other pay cycle: 2025-01-31. */
  const MonthEndPayDate: Day := DayNumber(2025, 1, 31)

  /** One edit of one form field, carrying the field's new value. */
  datatype Edit =
    | SetKind(newKind: TxType)
    | SetAmount(newAmount: real)
    | SetRequestDate(newRequestDate: Option<Day>)
    | SetDeliveryDate(newDeliveryDate: Option<Day>)
    | SetPaymentTerms(newPaymentTerms: Option<int>)
    | SetDepartment(newDepartment: string)
    | SetFundType(newFundType: string)
    | SetHireDate(newHireDate: Option<Day>)
    | SetPayCycle(newPayCycle: string)

  /** The draft with the edited field replaced and every other field kept. */
  function ApplyEdit(tx: Tx, e: Edit): (r: Tx)
    ensures r.kind == (if e.SetKind? then e.newKind else tx.kind)
    ensures r.amount == (if e.SetAmount? then e.newAmount else tx.amount)
    ensures r.requestDate == (if e.SetRequestDate? then e.newRequestDate else tx.requestDate)
    ensures r.deliveryDate == (if e.SetDeliveryDate? then e.newDeliveryDate else tx.deliveryDate)
    ensures r.paymentTerms == (if e.SetPaymentTerms? then e.newPaymentTerms else tx.paymentTerms)
    ensures r.department == (if e.SetDepartment? then e.newDepartment else tx.department)
    ensures r.fundType == (if e.SetFundType? then e.newFundType else tx.fundType)
    ensures r.hireDate == (if e.SetHireDate? then e.newHireDate else tx.hireDate)
    ensures r.payCycle == (if e.SetPayCycle? then e.newPayCycle else tx.payCycle)
    ensures r.payrollDate == tx.payrollDate
  {
    match e
    case SetKind(k) => tx.(kind := k)
    case SetAmount(a) => tx.(amount := a)
    case SetRequestDate(d) => tx.(requestDate := d)
    case SetDeliveryDate(d) => tx.(deliveryDate := d)
    case SetPaymentTerms(n) => tx.(paymentTerms := n)
    case SetDepartment(s) => tx.(department := s)
    case SetFundType(s) => tx.(fundType := s)
    case SetHireDate(d) => tx.(hireDate := d)
    case SetPayCycle(s) => tx.(payCycle := s)
  }

  /** The fringe the form displays for a draft: 46% of a payroll amount, else nothing. */
  function DisplayedFringe(tx: Tx): real {
    if tx.kind == Payroll then tx.amount * FringeRate else 0.0
  }

  /** What a simulation applies: the effective amount and the posting date (None when empty). */
  datatype Normalized = Normalized(amount: real, postingDate: Option<Day>)

  /**
   * Normalisation of a draft. A payroll posts on the pay-cycle policy date
   * and costs its amount plus the fringe; a purchase with both a delivery
   * date and payment terms posts that many days after delivery; anything
   * else posts on its request date. Only payroll changes the amount.
   */
  function Normalize(tx: Tx): (n: Normalized)
    ensures n.amount == tx.amount + DisplayedFringe(tx)
    ensures tx.kind == Payroll ==> n.amount == 1.46 * tx.amount
    ensures tx.kind == Payroll ==>
      n.postingDate == Some(if tx.payCycle == "Bi-Weekly" then BiWeeklyPayDate else MonthEndPayDate)
    ensures tx.kind == Purchase && tx.deliveryDate.Some? && tx.paymentTerms.Some? ==>
      n.postingDate == Some(tx.deliveryDate.value + tx.paymentTerms.value)
    ensures tx.kind != Payroll && !(tx.kind == Purchase && tx.deliveryDate.Some? && tx.paymentTerms.Some?) ==>
      n.postingDate == tx.requestDate
  {
    if tx.kind == Payroll then
      Normalized(tx.amount + tx.amount * FringeRate,
                 Some(if tx.payCycle == "Bi-Weekly" then BiWeeklyPayDate else MonthEndPayDate))
    else if tx.kind == Purchase && tx.deliveryDate.Some? && tx.paymentTerms.Some? then
      Normalized(tx.amount, Some(tx.deliveryDate.value + tx.paymentTerms.value))
    else
      Normalized(tx.amount, tx.requestDate)
  }

  /**
   * Whether the analyzer can format the posting date it computes: a
   * purchase's delivery date plus its terms must stay within the
   * platform's date range. Other posting dates are a policy constant or
   * the request date as entered, which are never reformatted.
   */
  predicate PostingDateInRange(tx: Tx) {
    tx.kind == Purchase && tx.deliveryDate.Some? && tx.paymentTerms.Some? ==>
      InDateRange(tx.deliveryDate.value + tx.paymentTerms.value)
  }

  /**
   * Only the type, the amount, the dates, the terms and the pay cycle
   * matter: the department, the fund type, the hire date and the payroll
   * date never change the normalised transaction.
   */
  lemma NormalizeIgnoresOtherFields(tx: Tx, tx': Tx)
    requires tx.kind == tx'.kind && tx.amount == tx'.amount && tx.payCycle == tx'.payCycle
    requires tx.requestDate == tx'.requestDate && tx.deliveryDate == tx'.deliveryDate
    requires tx.paymentTerms == tx'.paymentTerms
    ensures Normalize(tx) == Normalize(tx')
  {
  }
}
