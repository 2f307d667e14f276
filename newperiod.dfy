/** Opening the next monthly billing period of a contract: the payment it requires
    (the monthly amount plus every unpaid charge carried over), the checks before the
    request, the request itself and the form reset after success. */
module NewPeriod {
  import opened Common

  datatype Method = Cash | BankTransfer

  datatype NewPeriodError = MissingReceivedFrom | MissingBankAccount

  datatype Payload = Payload(
    receivedFrom: string,
    paymentMethod: Method,
    amountPaid: int,
    bankAccountName: Option<string>,
    additionalNotes: Option<string>)

  const DefaultBankAccount: string := "BCA 0554 0103 5208 507"

  /** `monthlyContractAmount || '0'`: a contract without an amount counts as 0. */
  function MonthlyAmount(monthlyContractAmount: Option<int>): (m: int)
    ensures monthlyContractAmount.None? ==> m == 0
    ensures monthlyContractAmount.Some? ==> m == monthlyContractAmount.value
  {
    if monthlyContractAmount.Some? then monthlyContractAmount.value else 0
  }

  /** The payment required to open the period: the monthly amount and the carried-over debt. */
  function TotalPaymentRequired(monthlyContractAmount: Option<int>, unpaidCharges: seq<int>): int
  {
    MonthlyAmount(monthlyContractAmount) + Sum(unpaidCharges)
  }

  lemma NoDebtMeansMonthlyAmount(monthly: Option<int>)
    ensures TotalPaymentRequired(monthly, []) == MonthlyAmount(monthly)
  {
  }

  /** One more unpaid charge raises the requirement by exactly its amount. */
  lemma ChargeRaisesTotal(monthly: Option<int>, charges: seq<int>, c: int)
    ensures TotalPaymentRequired(monthly, charges + [c]) == TotalPaymentRequired(monthly, charges) + c
  {
    SumAppend(charges, c);
  }

  /** With non-negative unpaid charges the requirement is never below the monthly amount. */
  lemma RequirementCoversMonthly(monthly: Option<int>, charges: seq<int>)
    requires forall i :: 0 <= i < |charges| ==> charges[i] >= 0
    ensures TotalPaymentRequired(monthly, charges) >= MonthlyAmount(monthly)
  {
    SumNonNegative(charges);
  }

  /** The checks of the submit handler, in order, and the request built after them. */
  function Validate(receivedFrom: string, m: Method, bankAccountName: string, notes: string,
                    monthly: Option<int>, unpaidCharges: seq<int>): (r: Result<Payload, NewPeriodError>)
    ensures Trim(receivedFrom) == [] ==> r == Err(MissingReceivedFrom)
    ensures Trim(receivedFrom) != [] && m == BankTransfer && Trim(bankAccountName) == [] ==> r == Err(MissingBankAccount)
    ensures r.Ok? <==> Trim(receivedFrom) != [] && (m == BankTransfer ==> Trim(bankAccountName) != [])
    ensures r.Ok? ==> && r.value.receivedFrom == Trim(receivedFrom)
                      && r.value.paymentMethod == m
                      // the whole requirement is paid, carried-over debt included
                      && r.value.amountPaid == TotalPaymentRequired(monthly, unpaidCharges)
                      && r.value.additionalNotes == Optional(Trim(notes))
    ensures r.Ok? ==> (r.value.bankAccountName.Some? <==> m == BankTransfer)
    ensures r.Ok? && m == BankTransfer ==> r.value.bankAccountName == Some(bankAccountName)
  {
    if Trim(receivedFrom) == "" then Err(MissingReceivedFrom)
    else if m == BankTransfer && Trim(bankAccountName) == "" then Err(MissingBankAccount)
    else
      Ok(Payload(Trim(receivedFrom), m, TotalPaymentRequired(monthly, unpaidCharges),
                 if m == BankTransfer then Some(bankAccountName) else None,
                 Optional(Trim(notes))))
  }

  /** In terms of the typed text: a name made only of white space is refused, so is a
      transfer whose bank account is only white space, and notes made only of white
      space are left out of the request. */
  lemma ValidateOnTypedText(receivedFrom: string, m: Method, bankAccountName: string, notes: string,
                            monthly: Option<int>, unpaidCharges: seq<int>)
    ensures var r := Validate(receivedFrom, m, bankAccountName, notes, monthly, unpaidCharges);
            && (IsBlank(receivedFrom) ==> r == Err(MissingReceivedFrom))
            && (!IsBlank(receivedFrom) && m == BankTransfer && IsBlank(bankAccountName) ==> r == Err(MissingBankAccount))
            && (r.Ok? <==> !IsBlank(receivedFrom) && (m == BankTransfer ==> !IsBlank(bankAccountName)))
            && (r.Ok? ==> r.value.receivedFrom != [] && (r.value.additionalNotes.None? <==> IsBlank(notes)))
  {
    TrimEmptyIffBlank(receivedFrom);
    TrimEmptyIffBlank(bankAccountName);
    TrimEmptyIffBlank(notes);
  }

  /** The dialog's form state; `unpaidCharges` holds the amounts fetched when it opens. */
  class Dialog {
    var receivedFrom: string
    var paymentMethod: Method
    var bankAccountName: string
    var additionalNotes: string
    var isSubmitting: bool
    var unpaidCharges: seq<int>

    constructor ()
      ensures receivedFrom == "" && paymentMethod == Cash && bankAccountName == DefaultBankAccount
      ensures additionalNotes == "" && !isSubmitting && unpaidCharges == []
    {
      receivedFrom := "";
      paymentMethod := Cash;
      bankAccountName := DefaultBankAccount;
      additionalNotes := "";
      isSubmitting := false;
      unpaidCharges := [];
    }

    /** The submit handler. The request goes out exactly when validation passes; after
        an accepted request the success message reports the monthly amount (not the
        total paid) and the form returns to its opening state. */
    method HandleSubmit(monthly: Option<int>, accepted: bool) returns (sent: Option<Payload>, reported: Option<int>)
      modifies this
      ensures var v := Validate(old(receivedFrom), old(paymentMethod), old(bankAccountName), old(additionalNotes),
                                monthly, old(unpaidCharges));
              sent == (if v.Ok? then Some(v.value) else None)
      ensures reported.Some? <==> sent.Some? && accepted
      ensures reported.Some? ==> reported.value == MonthlyAmount(monthly)
                                 && sent.value.amountPaid == reported.value + Sum(old(unpaidCharges))
      ensures reported.Some? ==> && receivedFrom == "" && paymentMethod == Cash
                                 && additionalNotes == "" && bankAccountName == DefaultBankAccount
      ensures reported.None? ==> && receivedFrom == old(receivedFrom) && paymentMethod == old(paymentMethod)
                                 && additionalNotes == old(additionalNotes) && bankAccountName == old(bankAccountName)
      ensures unpaidCharges == old(unpaidCharges)
      ensures sent.None? ==> isSubmitting == old(isSubmitting)
      ensures sent.Some? ==> !isSubmitting
    {
      var v := Validate(receivedFrom, paymentMethod, bankAccountName, additionalNotes, monthly, unpaidCharges);
      reported := None;
      if v.Err? {
        sent := None;
        return;
      }
      var payload := v.value;
      assert payload.amountPaid == MonthlyAmount(monthly) + Sum(unpaidCharges);
      isSubmitting := true;
      sent := Some(payload);
      if accepted {
        reported := Some(MonthlyAmount(monthly));
        ResetForm();
      }
      isSubmitting := false;
    }

    /** The reset after an accepted request: the fields the dialog opens with, except the
        fetched charges, which are kept. */
    method ResetForm()
      modifies this
      ensures receivedFrom == "" && paymentMethod == Cash && additionalNotes == ""
      ensures bankAccountName == DefaultBankAccount
      ensures isSubmitting == old(isSubmitting) && unpaidCharges == old(unpaidCharges)
    {
      receivedFrom := "";
      paymentMethod := Cash;
      additionalNotes := "";
      bankAccountName := DefaultBankAccount;
    }
  }
}
