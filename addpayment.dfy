/** Recording a payment against a patient's open invoice: the validation chain run
    before anything is sent, the request built from the form, the state of the
    dialog before and after a submission, and the save button's guard. */
module AddPayment {
  import opened Common

  datatype Method = Cash | BankTransfer

  /** The invoice of the patient's booking, with its outstanding balance in rupiah. */
  datatype Invoice = Invoice(id: string, balanceAmount: int)

  datatype PaymentError = NoInvoice | NonPositiveAmount | ExceedsBalance | MissingReference

  /** What the dialog posts to record one payment. */
  datatype Payload = Payload(
    invoiceId: string,
    bookingId: string,
    amount: int,
    paymentMethod: Method,
    bankAccountName: Option<string>,
    transferReferenceNumber: Option<string>,
    notes: Option<string>)

  const DefaultBankAccount: string := "BRI 0554 0103 7466 509"

  /** The checks of the submit handler, in the order it runs them, and the request it
      builds once every check has passed. */
  function Validate(invoice: Option<Invoice>, bookingId: string, amountPaid: Entry, m: Method,
                    bankAccountName: string, reference: string, notes: string): (r: Result<Payload, PaymentError>)
    // the missing invoice is reported before anything else is looked at
    ensures invoice.None? ==> r == Err(NoInvoice)
    ensures invoice.Some? && Number(amountPaid) <= 0 ==> r == Err(NonPositiveAmount)
    ensures invoice.Some? && 0 < Number(amountPaid) && invoice.value.balanceAmount < Number(amountPaid) ==> r == Err(ExceedsBalance)
    ensures r.Ok? <==> && invoice.Some?
                       && 0 < Number(amountPaid) <= invoice.value.balanceAmount
                       && (m == BankTransfer ==> reference != "")
    ensures r == Err(MissingReference) ==> m == BankTransfer && reference == ""
    ensures r.Ok? ==> && r.value.invoiceId == invoice.value.id
                      && r.value.bookingId == bookingId
                      && r.value.amount == Number(amountPaid)
                      && r.value.paymentMethod == m
                      && r.value.notes == Optional(notes)
    // the bank details travel only with a transfer
    ensures r.Ok? ==> (r.value.bankAccountName.Some? <==> m == BankTransfer)
    ensures r.Ok? ==> (r.value.transferReferenceNumber.Some? <==> m == BankTransfer)
    ensures r.Ok? && m == BankTransfer ==>
              r.value.bankAccountName == Some(bankAccountName) && r.value.transferReferenceNumber == Some(reference)
  {
    if invoice.None? then Err(NoInvoice)
    else if Number(amountPaid) <= 0 then Err(NonPositiveAmount)
    else if Number(amountPaid) > invoice.value.balanceAmount then Err(ExceedsBalance)
    else if m == BankTransfer && reference == "" then Err(MissingReference)
    else
      Ok(Payload(invoice.value.id, bookingId, Number(amountPaid), m,
                 if m == BankTransfer then Some(bankAccountName) else None,
                 if m == BankTransfer then Some(reference) else None,
                 Optional(notes)))
  }

  /** Every request that leaves the dialog pays something and never more than is owed. */
  lemma SentPaymentWithinBalance(invoice: Option<Invoice>, bookingId: string, amountPaid: Entry, m: Method,
                                 bank: string, reference: string, notes: string)
    requires Validate(invoice, bookingId, amountPaid, m, bank, reference, notes).Ok?
    ensures var p := Validate(invoice, bookingId, amountPaid, m, bank, reference, notes).value;
            0 < p.amount <= invoice.value.balanceAmount
  {
  }

  /** Paying the balance off exactly is accepted. */
  lemma ExactBalanceAccepted(inv: Invoice, bookingId: string, notes: string)
    requires inv.balanceAmount > 0
    ensures Validate(Some(inv), bookingId, Filled(inv.balanceAmount), Cash, DefaultBankAccount, "", notes).Ok?
  {
  }

  /** The save button: greyed out while a submission runs and while the amount is
      empty or not positive. */
  predicate SubmitDisabled(isSubmitting: bool, amountPaid: Entry)
  {
    isSubmitting || amountPaid.Blank? || Number(amountPaid) <= 0
  }

  /** A clickable save button guarantees the amount check of the handler is passed. */
  lemma EnabledButtonPassesAmountCheck(isSubmitting: bool, invoice: Option<Invoice>, bookingId: string, amountPaid: Entry,
                                       m: Method, bank: string, reference: string, notes: string)
    requires !SubmitDisabled(isSubmitting, amountPaid)
    ensures Validate(invoice, bookingId, amountPaid, m, bank, reference, notes) != Err(NonPositiveAmount)
  {
  }

  /** The dialog is drawn only for a patient with an invoice. */
  predicate Rendered(invoice: Option<Invoice>)
  {
    invoice.Some?
  }

  /** The dialog's form state. */
  class Dialog {
    var paymentMethod: Method
    var amountPaid: Entry
    var bankAccountName: string
    var transferReferenceNumber: string
    var notes: string
    var isSubmitting: bool

    constructor ()
      ensures paymentMethod == Cash && amountPaid == Blank
      ensures bankAccountName == DefaultBankAccount
      ensures transferReferenceNumber == "" && notes == "" && !isSubmitting
    {
      paymentMethod := Cash;
      amountPaid := Blank;
      bankAccountName := DefaultBankAccount;
      transferReferenceNumber := "";
      notes := "";
      isSubmitting := false;
    }

    /** Runs the submit handler. `accepted` is the server's answer to the request, if
        one is sent. The request is sent exactly when validation passes; only an
        accepted request clears the amount, reference and notes and returns the
        method to cash, and the bank account is kept in every case. */
    method HandleSubmit(invoice: Option<Invoice>, bookingId: string, accepted: bool) returns (sent: Option<Payload>)
      modifies this
      ensures var v := Validate(invoice, bookingId, old(amountPaid), old(paymentMethod), old(bankAccountName),
                                old(transferReferenceNumber), old(notes));
              sent == (if v.Ok? then Some(v.value) else None)
      ensures sent.Some? && accepted ==>
                amountPaid == Blank && paymentMethod == Cash && transferReferenceNumber == "" && notes == ""
      ensures !(sent.Some? && accepted) ==>
                && amountPaid == old(amountPaid) && paymentMethod == old(paymentMethod)
                && transferReferenceNumber == old(transferReferenceNumber) && notes == old(notes)
      ensures bankAccountName == old(bankAccountName)
      // a refused submission returns before the busy flag is touched; a sent one clears it at the end
      ensures sent.None? ==> isSubmitting == old(isSubmitting)
      ensures sent.Some? ==> !isSubmitting
    {
      var v := Validate(invoice, bookingId, amountPaid, paymentMethod, bankAccountName, transferReferenceNumber, notes);
      if v.Err? {
        sent := None;
        return;
      }
      isSubmitting := true;
      sent := Some(v.value);
      if accepted {
        amountPaid := Blank;
        paymentMethod := Cash;
        transferReferenceNumber := "";
        notes := "";
      }
      isSubmitting := false;
    }
  }
}
