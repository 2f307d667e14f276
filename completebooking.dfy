/** Completing (checking out) a booking: the length of stay in days, the outstanding
    balance that blocks completion, the checks of the submit handler and its button. */
module CompleteBooking {
  import opened Common

  /** Instants are whole milliseconds since the epoch, as `getTime` returns them. */
  const MillisPerDay: int := 1000 * 60 * 60 * 24

  /** `Math.ceil(a / b)` for a non-negative `a` and a positive `b`. */
  function CeilDiv(a: nat, b: int): (q: nat)
    requires b > 0
    ensures q * b >= a
    ensures q > 0 ==> (q - 1) * b < a
  {
    var q := (a + b - 1) / b;
    assert q * b + (a + b - 1) % b == a + b - 1;
    q
  }

  function Abs(x: int): nat
  {
    if x < 0 then -x else x
  }

  /** The length of stay: whole days between check-in and check-out, a started day counting as one. */
  function CalculateDays(checkIn: int, checkOut: int): (days: nat)
    ensures days * MillisPerDay >= Abs(checkOut - checkIn)
    ensures days > 0 ==> (days - 1) * MillisPerDay < Abs(checkOut - checkIn)
  {
    CeilDiv(Abs(checkOut - checkIn), MillisPerDay)
  }

  /** The number of days cannot change when the two dates are swapped. */
  lemma DaysSymmetric(a: int, b: int)
    ensures CalculateDays(a, b) == CalculateDays(b, a)
  {
    assert Abs(b - a) == Abs(a - b);
  }

  /** `CeilDiv` is determined by its two bounds. */
  lemma CeilDivUnique(a: nat, b: int, k: nat)
    requires b > 0
    requires k * b >= a && (k > 0 ==> (k - 1) * b < a)
    ensures CeilDiv(a, b) == k
  {
    var q := CeilDiv(a, b);
    if k > 0 {
      FactorOrder(q, k - 1, b);
    }
    if q > 0 {
      FactorOrder(k, q - 1, b);
    }
  }

  lemma FactorOrder(x: int, y: int, b: int)
    requires b > 0 && x * b > y * b
    ensures x > y
  {
    assert (x - y) * b == x * b - y * b;
  }

  /** A stay of exactly `k` days counts `k` days. */
  lemma WholeDays(checkIn: int, k: nat)
    ensures CalculateDays(checkIn, checkIn + k * MillisPerDay) == k
  {
    assert Abs(checkIn + k * MillisPerDay - checkIn) == k * MillisPerDay;
    if k > 0 {
      assert (k - 1) * MillisPerDay == k * MillisPerDay - MillisPerDay;
    }
    CeilDivUnique(k * MillisPerDay, MillisPerDay, k);
  }

  /** A started day counts in full. */
  lemma PartDayRoundsUp(checkIn: int, k: nat, rest: int)
    requires 0 < rest < MillisPerDay
    ensures CalculateDays(checkIn, checkIn + k * MillisPerDay + rest) == k + 1
  {
    var a := k * MillisPerDay + rest;
    assert Abs(checkIn + k * MillisPerDay + rest - checkIn) == a;
    assert (k + 1) * MillisPerDay == k * MillisPerDay + MillisPerDay;
    CeilDivUnique(a, MillisPerDay, k + 1);
  }

  /** The invoice of the booking with its outstanding balance in rupiah. */
  datatype Invoice = Invoice(id: string, status: string, balanceAmount: int)

  /** `invoice && balance > 0`. */
  predicate HasOutstandingBalance(invoice: Option<Invoice>)
  {
    invoice.Some? && invoice.value.balanceAmount > 0
  }

  datatype CompleteError = MissingCheckOut | CheckOutBeforeCheckIn | OutstandingBalance

  datatype Payload = Payload(checkOut: int, notes: Option<string>)

  /** The checks of the submit handler in order; `checkOut` is absent while the date field is empty. */
  function Validate(checkIn: int, checkOut: Option<int>, invoice: Option<Invoice>, notes: string): (r: Result<Payload, CompleteError>)
    ensures checkOut.None? ==> r == Err(MissingCheckOut)
    ensures checkOut.Some? && checkOut.value < checkIn ==> r == Err(CheckOutBeforeCheckIn)
    ensures checkOut.Some? && checkOut.value >= checkIn && HasOutstandingBalance(invoice) ==> r == Err(OutstandingBalance)
    // any check-out instant at or after check-in is accepted, and no invoice or a settled one
    // does not block; a check-out date is its midnight, so a same-day check-out comes before a
    // check-in made later that day and is refused
    ensures r.Ok? <==> checkOut.Some? && checkIn <= checkOut.value && !HasOutstandingBalance(invoice)
    ensures r.Ok? ==> r.value.checkOut == checkOut.value && r.value.notes == Optional(notes)
  {
    if checkOut.None? then Err(MissingCheckOut)
    else if checkOut.value < checkIn then Err(CheckOutBeforeCheckIn)
    else if HasOutstandingBalance(invoice) then Err(OutstandingBalance)
    else Ok(Payload(checkOut.value, Optional(notes)))
  }

  /** A balance of zero or below never blocks completion. */
  lemma SettledInvoiceDoesNotBlock(checkIn: int, checkOut: int, inv: Invoice, notes: string)
    requires checkIn <= checkOut && inv.balanceAmount <= 0
    ensures Validate(checkIn, Some(checkOut), Some(inv), notes).Ok?
  {
  }

  /** The complete button: greyed out while submitting, without a date, or with a balance due. */
  predicate SubmitDisabled(isSubmitting: bool, checkOut: Option<int>, invoice: Option<Invoice>)
  {
    isSubmitting || checkOut.None? || HasOutstandingBalance(invoice)
  }

  /** A clickable button leaves only the date order for the handler to refuse. */
  lemma EnabledButtonOnlyChecksOrder(checkIn: int, checkOut: Option<int>, invoice: Option<Invoice>, notes: string)
    requires !SubmitDisabled(false, checkOut, invoice)
    ensures Validate(checkIn, checkOut, invoice, notes).Ok? <==> checkIn <= checkOut.value
  {
  }

  /** The dialog's form state; the check-out date starts as today. */
  class Dialog {
    var checkOutDate: Option<int>
    var notes: string
    var isSubmitting: bool

    constructor (today: int)
      ensures checkOutDate == Some(today) && notes == "" && !isSubmitting
    {
      checkOutDate := Some(today);
      notes := "";
      isSubmitting := false;
    }

    /** The submit handler: the request is sent exactly when validation passes; an
        accepted one reports the length of stay and resets the date to today and the
        notes to empty. */
    method HandleSubmit(checkIn: int, invoice: Option<Invoice>, today: int, accepted: bool)
      returns (sent: Option<Payload>, days: Option<nat>)
      modifies this
      ensures var v := Validate(checkIn, old(checkOutDate), invoice, old(notes));
              sent == (if v.Ok? then Some(v.value) else None)
      ensures days.Some? <==> sent.Some? && accepted
      ensures days.Some? ==> days.value == CalculateDays(checkIn, old(checkOutDate).value)
      ensures days.Some? ==> checkOutDate == Some(today) && notes == ""
      ensures days.None? ==> checkOutDate == old(checkOutDate) && notes == old(notes)
      ensures sent.None? ==> isSubmitting == old(isSubmitting)
      ensures sent.Some? ==> !isSubmitting
    {
      var v := Validate(checkIn, checkOutDate, invoice, notes);
      days := None;
      if v.Err? {
        sent := None;
        return;
      }
      isSubmitting := true;
      sent := Some(v.value);
      if accepted {
        days := Some(CalculateDays(checkIn, checkOutDate.value));
        checkOutDate := Some(today);
        notes := "";
      }
      isSubmitting := false;
    }
  }
}
