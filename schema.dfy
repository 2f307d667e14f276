/** The ledger records of the relational schema: contracts, billing periods,
    payments, transactions, approvals and approval actions, with the defaults
    the columns declare and the documented running-balance formula. */
module Schema {
  import opened Common

  // ---------------------------------------------------------------- contracts

  datatype ContractStatus = ContractActive | ContractCompleted | ContractTerminated

  datatype PatientContract = PatientContract(
    contractCode: string,
    monthlyRate: nat,
    paymentDueDay: int,
    startDate: int,
    endDate: Option<int>,   // None: an ongoing contract
    status: ContractStatus)

  /** The due day is a day of the month that every month has. */
  predicate ValidDueDay(day: int)
  {
    1 <= day <= 28
  }

  /** A contract inserted with only its required columns. */
  function NewContract(code: string, monthlyRate: nat, startDate: int): (c: PatientContract)
    ensures ValidDueDay(c.paymentDueDay) && c.paymentDueDay == 1
    ensures c.status == ContractActive && c.endDate == None
    ensures c.monthlyRate == monthlyRate && c.startDate == startDate
  {
    PatientContract(code, monthlyRate, 1, startDate, None, ContractActive)
  }

  // ---------------------------------------------------------- billing periods

  datatype PeriodStatus = Active | Overdue | Settled | Unrealized
  {
    /** The text stored in the status column. */
    function Name(): string
    {
      match this
      case Active => "ACTIVE"
      case Overdue => "OVERDUE"
      case Settled => "SETTLED"
      case Unrealized => "UNREALIZED"
    }
  }

  /** The status texts the schema declares. */
  function PeriodStatusNames(): set<string>
  {
    {"ACTIVE", "OVERDUE", "SETTLED", "UNREALIZED"}
  }

  lemma PeriodStatusNamesExact(name: string)
    ensures name in PeriodStatusNames() <==> exists s: PeriodStatus :: s.Name() == name
  {
    if name in PeriodStatusNames() {
      var s := if name == "ACTIVE" then Active else if name == "OVERDUE" then Overdue
               else if name == "SETTLED" then Settled else Unrealized;
      assert s.Name() == name;
    }
  }

  datatype BillingPeriod = BillingPeriod(
    periodCode: string,
    periodYear: int,
    periodMonth: int,
    baseMonthlyRate: int,
    nursingCharge: int,
    additionalCharges: int,
    totalCharged: int,
    totalExpenses: int,
    totalPaid: int,
    balance: int,
    status: PeriodStatus)

  /** `balance = totalPaid - (totalCharged + totalExpenses)`. */
  function RunningBalance(totalPaid: int, totalCharged: int, totalExpenses: int): (b: int)
    ensures b > 0 <==> totalPaid > totalCharged + totalExpenses
    ensures b < 0 <==> totalPaid < totalCharged + totalExpenses
    ensures b + totalCharged + totalExpenses == totalPaid
  {
    totalPaid - (totalCharged + totalExpenses)
  }

  /** The documented relations between the columns of one period. */
  predicate Consistent(p: BillingPeriod)
  {
    && 1 <= p.periodMonth <= 12
    && p.totalCharged == p.baseMonthlyRate + p.nursingCharge + p.additionalCharges
    && p.balance == RunningBalance(p.totalPaid, p.totalCharged, p.totalExpenses)
  }

  datatype Standing = Credit | Debt | Even

  /** Positive balance: the patient has paid more than was charged and spent (credit);
      negative: the patient owes the difference (debt). */
  function StandingOf(p: BillingPeriod): (s: Standing)
    requires Consistent(p)
    ensures s == Credit <==> p.totalPaid > p.baseMonthlyRate + p.nursingCharge + p.additionalCharges + p.totalExpenses
    ensures s == Debt <==> p.totalPaid < p.baseMonthlyRate + p.nursingCharge + p.additionalCharges + p.totalExpenses
    ensures s == Even <==> p.balance == 0
  {
    if p.balance > 0 then Credit else if p.balance < 0 then Debt else Even
  }

  /** A period row built from its charge columns that leaves every defaulted column
      (`totalExpenses`, `totalPaid`, `status`) at its default value, with the
      derived columns filled in by the documented formulas. */
  function NewPeriod(code: string, year: int, month: int, baseRate: int, nursing: int, additional: int): (p: BillingPeriod)
    requires 1 <= month <= 12
    ensures Consistent(p)
    ensures p.status == Active && p.totalPaid == 0 && p.totalExpenses == 0
    ensures p.baseMonthlyRate == baseRate && p.nursingCharge == nursing && p.additionalCharges == additional
    ensures p.periodYear == year && p.periodMonth == month
    ensures p.balance == -(baseRate + nursing + additional)
  {
    var charged := baseRate + nursing + additional;
    BillingPeriod(code, year, month, baseRate, nursing, additional, charged, 0, 0,
                  RunningBalance(0, charged, 0), Active)
  }

  /** The same period with its money columns replaced and the balance recomputed
      from them, never adjusted on its own. */
  function WithTotals(p: BillingPeriod, totalPaid: int, totalExpenses: int): (q: BillingPeriod)
    requires Consistent(p)
    ensures Consistent(q)
    ensures q.totalPaid == totalPaid && q.totalExpenses == totalExpenses
    ensures q.totalCharged == p.totalCharged && q.status == p.status
    ensures q.periodYear == p.periodYear && q.periodMonth == p.periodMonth
  {
    p.(totalPaid := totalPaid, totalExpenses := totalExpenses,
       balance := RunningBalance(totalPaid, p.totalCharged, totalExpenses))
  }

  /** With everything else fixed, every extra rupiah paid raises the balance by one
      and every extra rupiah spent lowers it by one. */
  lemma BalanceMovesWithTotals(p: BillingPeriod, paid: int, expenses: int)
    requires Consistent(p)
    ensures WithTotals(p, paid, expenses).balance - p.balance == (paid - p.totalPaid) - (expenses - p.totalExpenses)
  {
  }

  // ----------------------------------------------------------------- payments

  datatype PaymentMethod = Cash | BankTransfer
  datatype PaymentStatus = PaymentPending | PaymentVerified | PaymentRejected
  {
    function Name(): string
    {
      match this
      case PaymentPending => "PENDING"
      case PaymentVerified => "VERIFIED"
      case PaymentRejected => "REJECTED"
    }
  }

  datatype Payment = Payment(
    paymentCode: string,
    amount: int,
    paymentMethod: PaymentMethod,
    transferReferenceNumber: Option<string>,
    paidBy: string,
    status: PaymentStatus,
    verifiedByUserId: Option<string>)

  /** A payment row inserted without a status starts PENDING and unverified. */
  function NewPayment(code: string, amount: int, payMethod: PaymentMethod, reference: Option<string>, paidBy: string): (p: Payment)
    ensures p.status == PaymentPending && p.verifiedByUserId == None
    ensures p.amount == amount && p.paymentMethod == payMethod && p.paidBy == paidBy
  {
    Payment(code, amount, payMethod, reference, paidBy, PaymentPending, None)
  }

  // ------------------------------------------------------------- transactions

  datatype TransactionType = Revenue | Expense | CapitalInjection | Transfer
  datatype AccountType = CashAccount | BankAccount

  datatype Transaction = Transaction(
    transactionCode: string,
    transactionType: TransactionType,
    amount: int,
    accountType: AccountType,
    referenceId: Option<string>,
    isRealized: bool)

  /** A transaction row is realized unless it says otherwise. */
  function NewTransaction(code: string, kind: TransactionType, amount: int, account: AccountType, reference: Option<string>): (t: Transaction)
    ensures t.isRealized
    ensures t.transactionType == kind && t.amount == amount && t.accountType == account
  {
    Transaction(code, kind, amount, account, reference, true)
  }

  // ---------------------------------------------------------------- approvals

  datatype ApprovalStatus = ApprovalPending | ApprovalApproved | ApprovalRejected | ApprovalCancelled

  datatype Approval = Approval(
    resourceType: string,
    resourceId: string,
    workflowId: string,
    currentStepOrder: int,
    status: ApprovalStatus,
    requestedByUserId: string)

  /** An approval row starts at step 1, pending. */
  function NewApproval(resourceType: string, resourceId: string, workflowId: string, requester: string): (a: Approval)
    ensures a.currentStepOrder == 1 && a.status == ApprovalPending
    ensures a.resourceType == resourceType && a.resourceId == resourceId
    ensures a.workflowId == workflowId && a.requestedByUserId == requester
  {
    Approval(resourceType, resourceId, workflowId, 1, ApprovalPending, requester)
  }

  datatype Decision = Approved | Rejected | RequestedChanges

  /** One approver's recorded decision at one step. */
  datatype ApprovalAction = ApprovalAction(
    approvalId: string,
    stepOrder: int,
    action: Decision,
    approverUserId: string,
    comments: Option<string>)
}
