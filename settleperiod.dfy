/** Closing a monthly billing period: the guard on the request, the revenue the
    success message reports, and the figures and percentages the dialog shows. */
module SettlePeriod {
  import opened Common

  /** The period as the dashboard lists it, with its money columns in rupiah. */
  datatype Period = Period(id: string, periodCode: string, periodMonth: int, periodYear: int,
                           prepaidAmount: int, spentAmount: int, remainingBalance: int)

  datatype Outcome =
    | NoPeriod                               // refused: nothing is sent
    | Failed(periodId: string)               // sent, and the server refused
    | Settled(periodId: string, revenue: int)

  /** The settle handler; `accepted` is the server's answer to the request. */
  function HandleSettle(period: Option<Period>, accepted: bool): (o: Outcome)
    ensures period.None? <==> o == NoPeriod
    ensures period.Some? ==> !o.NoPeriod? && o.periodId == period.value.id
    ensures o.Settled? <==> period.Some? && accepted
    // the balance is reported as it is, whatever its sign
    ensures o.Settled? ==> o.revenue == period.value.remainingBalance
  {
    if period.None? then NoPeriod
    else if accepted then Settled(period.value.id, period.value.remainingBalance)
    else Failed(period.value.id)
  }

  /** An overspent period is reported as negative revenue, not as zero. */
  lemma OverspentReportedNegative(p: Period)
    requires p.remainingBalance < 0
    ensures HandleSettle(Some(p), true).revenue < 0
  {
  }

  /** The figures the dialog shows; the percentages are absent when nothing was prepaid. */
  datatype Summary = Summary(
    prepaid: int,
    spent: int,
    remaining: int,
    revenue: int,
    spentPercent: Option<real>,
    remainingPercent: Option<real>)

  function Percent(part: int, whole: int): (p: Option<real>)
    ensures p.Some? <==> whole != 0
    ensures p.Some? ==> p.value * (whole as real) == (part as real) * 100.0
  {
    if whole == 0 then None else Some((part as real) / (whole as real) * 100.0)
  }

  /** What the dialog draws; nothing at all without a period. */
  function Render(period: Option<Period>): (s: Option<Summary>)
    ensures s.None? <==> period.None?
    ensures s.Some? ==> s.value.remaining == period.value.remainingBalance
    // "revenue to be recorded" is the remaining balance shown just above it
    ensures s.Some? ==> s.value.revenue == s.value.remaining
    ensures s.Some? ==> s.value.spentPercent == Percent(period.value.spentAmount, period.value.prepaidAmount)
    ensures s.Some? && s.value.spentPercent.Some? ==>
              s.value.remainingPercent.Some? && s.value.spentPercent.value + s.value.remainingPercent.value == 100.0
  {
    if period.None? then None
    else
      var p := period.value;
      var spent := Percent(p.spentAmount, p.prepaidAmount);
      Some(Summary(p.prepaidAmount, p.spentAmount, p.remainingBalance, p.remainingBalance,
                   spent, if spent.Some? then Some(100.0 - spent.value) else None))
  }

  /** With a positive prepayment, the bar is at most full exactly when no more was spent than prepaid. */
  lemma SpentPercentAtMostHundred(p: Period)
    requires p.prepaidAmount > 0
    ensures Percent(p.spentAmount, p.prepaidAmount).Some?
    ensures Percent(p.spentAmount, p.prepaidAmount).value <= 100.0 <==> p.spentAmount <= p.prepaidAmount
  {
    var w := p.prepaidAmount as real;
    var v := Percent(p.spentAmount, p.prepaidAmount).value;
    assert v * w == (p.spentAmount as real) * 100.0;
    if v <= 100.0 {
      assert v * w <= 100.0 * w;
    } else {
      assert v * w > 100.0 * w;
    }
  }
}
