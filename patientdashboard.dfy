/** The active-patients dashboard: the summary counts, the due-date warning, the
    payment badge, and which actions each patient row offers in which period status. */
module PatientDashboard {
  import opened Common
  import Schema
  import AddPayment

  const MillisPerDay: int := 1000 * 60 * 60 * 24

  datatype Invoice = Invoice(id: string, status: string, balanceAmount: int)
  datatype Period = Period(id: string, status: string, periodEndDate: int)

  /** One row of the dashboard. */
  datatype ActivePatient = ActivePatient(bookingType: string, invoice: Option<Invoice>, billingPeriod: Option<Period>)

  /** `Math.ceil(x / MillisPerDay)` for a difference of instants of either sign. */
  function CeilDays(x: int): int
  {
    -((-x) / MillisPerDay)
  }

  lemma CeilDaysBounds(x: int)
    ensures (CeilDays(x) - 1) * MillisPerDay < x <= CeilDays(x) * MillisPerDay
  {
    var q := (-x) / MillisPerDay;
    assert q * MillisPerDay + (-x) % MillisPerDay == -x;
  }

  /** The warning beside the period end: the due date is today or within the next ten days. */
  function IsDueDateNear(dueDate: Option<int>, now: int): (near: bool)
    ensures dueDate.None? ==> !near
    ensures dueDate.Some? ==> (near <==> 0 <= CeilDays(dueDate.value - now) <= 10)
  {
    dueDate.Some? && 0 <= CeilDays(dueDate.value - now) && CeilDays(dueDate.value - now) <= 10
  }

  /** In instants: the due date is less than a day in the past, and at most ten days ahead. */
  lemma DueDateNearWindow(due: int, now: int)
    ensures IsDueDateNear(Some(due), now) <==> -MillisPerDay < due - now <= 10 * MillisPerDay
  {
    var x := due - now;
    var d := CeilDays(x);
    CeilDaysBounds(x);
    if d < 0 {
      assert d * MillisPerDay <= -MillisPerDay;
    } else if d > 10 {
      assert (d - 1) * MillisPerDay >= 10 * MillisPerDay;
    } else {
      assert (d - 1) * MillisPerDay >= -MillisPerDay;
      assert d * MillisPerDay <= 10 * MillisPerDay;
    }
  }

  predicate IsPaid(p: ActivePatient)
  {
    p.invoice.Some? && p.invoice.value.status == "PAID"
  }

  /** The "Lunas" card: rows whose invoice is PAID. */
  function PaidCount(ps: seq<ActivePatient>): nat
  {
    if ps == [] then 0 else PaidCount(ps[..|ps| - 1]) + (if IsPaid(ps[|ps| - 1]) then 1 else 0)
  }

  /** The "Belum Lunas" card: every other row, including those without an invoice. */
  function UnpaidCount(ps: seq<ActivePatient>): nat
  {
    if ps == [] then 0 else UnpaidCount(ps[..|ps| - 1]) + (if !IsPaid(ps[|ps| - 1]) then 1 else 0)
  }

  /** The two cards always add up to the total of active patients. */
  lemma {:induction false} CountsPartition(ps: seq<ActivePatient>)
    ensures PaidCount(ps) + UnpaidCount(ps) == |ps|
    decreases |ps|
  {
    if ps != [] {
      CountsPartition(ps[..|ps| - 1]);
    }
  }

  /** The payment badge text; an unknown status shows as itself. */
  function PaymentBadge(status: string): (text: string)
    ensures status == "PAID" ==> text == "Lunas"
    ensures status == "PARTIAL" ==> text == "Sebagian"
    ensures status == "UNPAID" ==> text == "Belum Bayar"
    ensures status == "OVERDUE" ==> text == "Terlambat"
    ensures status !in {"PAID", "PARTIAL", "UNPAID", "OVERDUE"} ==> text == status
  {
    if status == "PAID" then "Lunas"
    else if status == "PARTIAL" then "Sebagian"
    else if status == "UNPAID" then "Belum Bayar"
    else if status == "OVERDUE" then "Terlambat"
    else status
  }

  // ----------------------------------------------------------- row actions

  predicate IsMonthly(p: ActivePatient)
  {
    p.bookingType == "MONTHLY_CONTRACT"
  }

  /** "Bayar": an invoice with a balance still to pay. */
  predicate PayShown(p: ActivePatient)
  {
    p.invoice.Some? && p.invoice.value.balanceAmount > 0
  }

  /** "Riwayat": any invoice. */
  predicate HistoryShown(p: ActivePatient)
  {
    p.invoice.Some?
  }

  /** A row offering "Bayar" also offers "Riwayat", and the payment dialog it opens
      accepts a cash payment of the whole balance. */
  lemma PayButtonLeadsToPayableInvoice(p: ActivePatient, bookingId: string)
    requires PayShown(p)
    ensures HistoryShown(p)
    ensures var inv := AddPayment.Invoice(p.invoice.value.id, p.invoice.value.balanceAmount);
            AddPayment.Validate(Some(inv), bookingId, Filled(inv.balanceAmount), AddPayment.Cash,
                                AddPayment.DefaultBankAccount, "", "").Ok?
  {
  }

  /** "Pengeluaran" is greyed out for a monthly contract whose period is missing or not ACTIVE. */
  predicate ExpenseDisabled(p: ActivePatient)
  {
    IsMonthly(p) && !(p.billingPeriod.Some? && p.billingPeriod.value.status == "ACTIVE")
  }

  /** "Tutup Periode" is offered for a monthly contract with a period ... */
  predicate SettleShown(p: ActivePatient)
  {
    IsMonthly(p) && p.billingPeriod.Some?
  }

  /** ... and can be clicked only while that period is ACTIVE. */
  predicate SettleEnabled(p: ActivePatient)
  {
    SettleShown(p) && p.billingPeriod.value.status == "ACTIVE"
  }

  /** Expenses of a monthly contract can be recorded exactly when its period can be closed. */
  lemma ExpenseFollowsSettle(p: ActivePatient)
    requires IsMonthly(p)
    ensures !ExpenseDisabled(p) <==> SettleEnabled(p)
  {
  }

  /** Any other kind of booking can always record expenses. */
  lemma NonMonthlyExpensesOpen(p: ActivePatient)
    requires !IsMonthly(p)
    ensures !ExpenseDisabled(p)
  {
  }

  /** "Periode Baru" as written: shown for a period whose status is 'CLOSED'. */
  predicate NewPeriodShownAsWritten(p: ActivePatient)
  {
    SettleShown(p) && p.billingPeriod.value.status == "CLOSED"
  }

  /** No status the schema allows a period to have is 'CLOSED', so the button never appears. */
  lemma NewPeriodNeverShown(p: ActivePatient, s: Schema.PeriodStatus)
    requires p.billingPeriod.Some? && p.billingPeriod.value.status == s.Name()
    ensures !NewPeriodShownAsWritten(p)
  {
  }

  /** "Periode Baru" offered once the period has been settled. */
  predicate NewPeriodShown(p: ActivePatient)
  {
    SettleShown(p) && p.billingPeriod.value.status == Schema.PeriodStatus.Settled.Name()
  }

  /** A settled monthly period offers the next one, and a row never offers both closing
      the period and opening the next. */
  lemma NewPeriodAfterSettle(p: ActivePatient)
    ensures IsMonthly(p) && p.billingPeriod.Some? && p.billingPeriod.value.status == "SETTLED" ==> NewPeriodShown(p)
    ensures !(NewPeriodShown(p) && SettleEnabled(p))
  {
  }
}
