/** The registration wizard: the invoice line items built from the payment step, the
    registration request, the gate on the "next" button of each step and the reset
    after a successful registration. */
module Registration {
  import opened Common
  import PaymentForm
  import PaymentMethod

  datatype ItemType = NursingItem | SnackItem | DoctorItem | CustomItem

  /** One invoice line as the request carries it. */
  datatype LineItem = LineItem(description: string, amount: int, itemType: ItemType)

  // ------------------------------------------------------------ line items

  /** A fixed fee becomes a line when it is ticked and has a value. */
  function FixedLine(enabled: bool, fee: Entry, description: string, t: ItemType): (items: seq<LineItem>)
    ensures |items| <= 1
    ensures items != [] <==> enabled && fee.Filled?
    ensures items != [] ==> items[0] == LineItem(description, fee.value, t)
  {
    if enabled && fee.Filled? then [LineItem(description, fee.value, t)] else []
  }

  /** A category becomes a line when it is ticked and has both an amount and a description. */
  predicate Billable(c: PaymentForm.Category)
  {
    c.enabled && c.amount.Filled? && c.description != ""
  }

  function CategoryLines(cs: seq<PaymentForm.Category>): (items: seq<LineItem>)
    ensures |items| <= |cs|
    ensures forall i :: 0 <= i < |items| ==> items[i].itemType == CustomItem
  {
    if cs == [] then []
    else
      var c := cs[|cs| - 1];
      CategoryLines(cs[..|cs| - 1]) + (if Billable(c) then [LineItem(c.description, c.amount.value, CustomItem)] else [])
  }

  /** Every billable category yields a line, and every custom line comes from one, with
      its description and amount. */
  lemma {:induction false} CategoryLinesExact(cs: seq<PaymentForm.Category>)
    ensures (exists i :: 0 <= i < |cs| && Billable(cs[i])) <==> CategoryLines(cs) != []
    ensures forall k :: 0 <= k < |CategoryLines(cs)| ==>
              exists i :: 0 <= i < |cs| && Billable(cs[i])
                          && CategoryLines(cs)[k] == LineItem(cs[i].description, cs[i].amount.value, CustomItem)
    decreases |cs|
  {
    if cs != [] {
      var init := cs[..|cs| - 1];
      CategoryLinesExact(init);
      forall i | 0 <= i < |init| && Billable(init[i])
        ensures Billable(cs[i])
      {
        assert init[i] == cs[i];
      }
      var lines := CategoryLines(cs);
      var initLines := CategoryLines(init);
      forall k | 0 <= k < |lines|
        ensures exists i :: 0 <= i < |cs| && Billable(cs[i])
                            && lines[k] == LineItem(cs[i].description, cs[i].amount.value, CustomItem)
      {
        if k < |initLines| {
          assert lines[k] == initLines[k];
          var i :| 0 <= i < |init| && Billable(init[i])
                   && initLines[k] == LineItem(init[i].description, init[i].amount.value, CustomItem);
          assert cs[i] == init[i];
        } else {
          assert lines[k] == LineItem(cs[|cs| - 1].description, cs[|cs| - 1].amount.value, CustomItem);
        }
      }
    }
  }

  /** The line items in order: nursing, snacks, doctor, then the categories in list order. */
  function LineItems(f: PaymentForm.FormData): seq<LineItem>
  {
    FixedLine(f.nursingEnabled, f.nursingFee, "Perawatan", NursingItem)
      + FixedLine(f.snackEnabled, f.snackFee, "Snack/ keb. Diri", SnackItem)
      + FixedLine(f.doctorEnabled, f.doctorCheckup, "Kontrol dokter", DoctorItem)
      + CategoryLines(f.customCategories)
  }

  /** Pushes a fixed fee's line when it is ticked and has a value. */
  method PushFixed(items: seq<LineItem>, enabled: bool, fee: Entry, description: string, t: ItemType)
    returns (r: seq<LineItem>)
    ensures r == items + FixedLine(enabled, fee, description, t)
  {
    r := items;
    if enabled && fee.Filled? {
      r := r + [LineItem(description, fee.value, t)];
    }
  }

  /** Building the line items by pushing them one at a time. */
  method BuildLineItems(f: PaymentForm.FormData) returns (items: seq<LineItem>)
    ensures items == LineItems(f)
  {
    items := PushFixed([], f.nursingEnabled, f.nursingFee, "Perawatan", NursingItem);
    items := PushFixed(items, f.snackEnabled, f.snackFee, "Snack/ keb. Diri", SnackItem);
    items := PushFixed(items, f.doctorEnabled, f.doctorCheckup, "Kontrol dokter", DoctorItem);
    ghost var fixed := items;
    assert fixed == FixedLine(f.nursingEnabled, f.nursingFee, "Perawatan", NursingItem)
                    + FixedLine(f.snackEnabled, f.snackFee, "Snack/ keb. Diri", SnackItem)
                    + FixedLine(f.doctorEnabled, f.doctorCheckup, "Kontrol dokter", DoctorItem);
    var cs := f.customCategories;
    var i := 0;
    while i < |cs|
      invariant 0 <= i <= |cs|
      invariant items == fixed + CategoryLines(cs[..i])
    {
      var c := cs[i];
      CategoryLinesStep(cs, i);
      if Billable(c) {
        var line := LineItem(c.description, c.amount.value, CustomItem);
        assert (fixed + CategoryLines(cs[..i])) + [line] == fixed + (CategoryLines(cs[..i]) + [line]);
        items := items + [line];
      } else {
        assert CategoryLines(cs[..i + 1]) == CategoryLines(cs[..i]) + [];
      }
      i := i + 1;
    }
    assert cs[..|cs|] == cs;
  }

  /** One more category adds its line, if it is billable, at the end. */
  lemma CategoryLinesStep(cs: seq<PaymentForm.Category>, i: nat)
    requires i < |cs|
    ensures CategoryLines(cs[..i + 1]) == CategoryLines(cs[..i])
              + (if Billable(cs[i]) then [LineItem(cs[i].description, cs[i].amount.value, CustomItem)] else [])
  {
    assert cs[..i + 1][..i] == cs[..i];
  }

  function LinesSum(items: seq<LineItem>): int
  {
    if items == [] then 0 else LinesSum(items[..|items| - 1]) + items[|items| - 1].amount
  }

  lemma {:induction false} LinesSumConcat(a: seq<LineItem>, b: seq<LineItem>)
    ensures LinesSum(a + b) == LinesSum(a) + LinesSum(b)
    decreases |b|
  {
    if b == [] {
      assert a + b == a;
    } else {
      var init := b[..|b| - 1];
      assert (a + b)[..|a + b| - 1] == a + init;
      assert (a + b)[|a + b| - 1] == b[|b| - 1];
      LinesSumConcat(a, init);
    }
  }

  /** What the total counts for categories that are ticked and have an amount but no
      description, and so are not billed. */
  function UndescribedTotal(cs: seq<PaymentForm.Category>): int
  {
    if cs == [] then 0
    else
      var c := cs[|cs| - 1];
      UndescribedTotal(cs[..|cs| - 1]) + (if c.enabled && c.amount.Filled? && c.description == "" then c.amount.value else 0)
  }

  lemma {:induction false} CategoryLinesVersusTotal(cs: seq<PaymentForm.Category>)
    ensures PaymentForm.CategoriesTotal(cs) == LinesSum(CategoryLines(cs)) + UndescribedTotal(cs)
    decreases |cs|
  {
    if cs != [] {
      var c := cs[|cs| - 1];
      CategoryLinesVersusTotal(cs[..|cs| - 1]);
      LinesSumConcat(CategoryLines(cs[..|cs| - 1]),
                     if Billable(c) then [LineItem(c.description, c.amount.value, CustomItem)] else []);
    }
  }

  /** The total both payment steps show is what the line items bill plus the ticked
      categories that have an amount but no description; the change or balance shown
      on the last step is reckoned against that total. */
  lemma LineItemsVersusTotal(f: PaymentForm.FormData)
    ensures PaymentForm.Total(f) == LinesSum(LineItems(f)) + UndescribedTotal(f.customCategories)
  {
    var n := FixedLine(f.nursingEnabled, f.nursingFee, "Perawatan", NursingItem);
    var s := FixedLine(f.snackEnabled, f.snackFee, "Snack/ keb. Diri", SnackItem);
    var d := FixedLine(f.doctorEnabled, f.doctorCheckup, "Kontrol dokter", DoctorItem);
    var c := CategoryLines(f.customCategories);
    LinesSumConcat(n + s + d, c);
    LinesSumConcat(n + s, d);
    LinesSumConcat(n, s);
    assert LinesSum(n) == Contribution(f.nursingEnabled, f.nursingFee);
    assert LinesSum(s) == Contribution(f.snackEnabled, f.snackFee);
    assert LinesSum(d) == Contribution(f.doctorEnabled, f.doctorCheckup);
    CategoryLinesVersusTotal(f.customCategories);
  }

  // --------------------------------------------------------------- request

  /** The wizard's state. */
  datatype RegistrationData = RegistrationData(
    patient: Option<string>,
    room: Option<string>,
    paymentForm: Option<PaymentForm.FormData>,
    paymentMethod: Option<PaymentMethod.RegMethod>,
    amountPaid: string)

  /** Nothing chosen yet and nothing paid. */
  const EmptyData: RegistrationData := RegistrationData(None, None, None, None, "0")

  const DefaultBankAccount: string := "BCA 0554 0103 5208 507"

  datatype Payload = Payload(
    patientId: string,
    roomId: string,
    checkIn: int,
    receivedFrom: string,
    lineItems: seq<LineItem>,
    additionalNotes: string,
    paymentMethod: PaymentMethod.RegMethod,
    amountPaid: string,
    bankAccountName: Option<string>,
    monthlyContractAmount: Entry,
    bookingType: string)

  predicate Complete(d: RegistrationData)
  {
    d.patient.Some? && d.room.Some? && d.paymentForm.Some? && d.paymentMethod.Some?
  }

  /** The bank account sent with the request, as written: only for 'BANK_TRANSFER'. */
  function BankAccountAsWritten(m: PaymentMethod.RegMethod): (account: Option<string>)
    ensures account.Some? ==> account.value == DefaultBankAccount
  {
    if PaymentMethod.MethodName(m) == "BANK_TRANSFER" then Some(DefaultBankAccount) else None
  }

  /** No method is named 'BANK_TRANSFER', so a transfer is registered without its account. */
  lemma BankAccountNeverSent(m: PaymentMethod.RegMethod)
    ensures BankAccountAsWritten(m) == None
  {
  }

  /** The bank account for the method the wizard calls TRANSFER. */
  function BankAccountFor(m: PaymentMethod.RegMethod): (account: Option<string>)
    ensures account.Some? <==> m == PaymentMethod.Transfer
    ensures account.Some? ==> account.value == DefaultBankAccount
  {
    if m == PaymentMethod.Transfer then Some(DefaultBankAccount) else None
  }

  /** The request for complete wizard data; `checkIn` is the current instant. The bank
      account is chosen as written, so it is never sent. */
  function RequestFor(d: RegistrationData, checkIn: int): (p: Payload)
    requires Complete(d)
    ensures p.patientId == d.patient.value && p.roomId == d.room.value && p.checkIn == checkIn
    ensures p.receivedFrom == d.paymentForm.value.receivedFrom
    ensures p.lineItems == LineItems(d.paymentForm.value)
    ensures p.additionalNotes == d.paymentForm.value.additionalNotes
    ensures p.paymentMethod == d.paymentMethod.value
    // PAYLATER pays nothing now, whatever was typed
    ensures p.amountPaid == (if d.paymentMethod.value == PaymentMethod.Paylater then "0" else d.amountPaid)
    // the test for 'BANK_TRANSFER' never holds, a transfer included
    ensures p.bankAccountName == None
    // the contract's monthly amount is the nursing fee
    ensures p.monthlyContractAmount == d.paymentForm.value.nursingFee
    ensures p.bookingType == "MONTHLY_CONTRACT"
  {
    var f := d.paymentForm.value;
    var m := d.paymentMethod.value;
    Payload(d.patient.value, d.room.value, checkIn, f.receivedFrom, LineItems(f), f.additionalNotes, m,
            if m == PaymentMethod.Paylater then "0" else d.amountPaid,
            BankAccountAsWritten(m), f.nursingFee, "MONTHLY_CONTRACT")
  }

  // ------------------------------------------------------------ step gates

  datatype Step = PatientStep | RoomStep | PaymentFormStep | PaymentMethodStep

  /** The payment step's gate: a payer name and at least one line that will be billed. */
  predicate PaymentFormReady(d: RegistrationData)
  {
    && d.paymentForm.Some?
    && d.paymentForm.value.receivedFrom != ""
    && var f := d.paymentForm.value;
       || (f.nursingEnabled && f.nursingFee.Filled?)
       || (f.snackEnabled && f.snackFee.Filled?)
       || (f.doctorEnabled && f.doctorCheckup.Filled?)
       || (exists i :: 0 <= i < |f.customCategories| && Billable(f.customCategories[i]))
  }

  /** `Number(amountPaid) <= 0`; a text that is not a number compares false. */
  predicate NothingPaid(amountPaid: string)
  {
    PaymentMethod.NumberOf(amountPaid).Some? && PaymentMethod.NumberOf(amountPaid).value <= 0
  }

  /** The "next" button (on the last step, "finish and save"). */
  predicate NextDisabled(step: Step, isSubmitting: bool, d: RegistrationData)
  {
    || isSubmitting
    || (step == PatientStep && d.patient.None?)
    || (step == RoomStep && d.room.None?)
    || (step == PaymentFormStep && !PaymentFormReady(d))
    || (step == PaymentMethodStep && d.paymentMethod.None?)
    || (step == PaymentMethodStep && d.paymentMethod.Some? && d.paymentMethod.value != PaymentMethod.Paylater
        && NothingPaid(d.amountPaid))
  }

  /** Leaving the payment step guarantees a non-empty list of line items. */
  lemma PaymentGateGivesLineItems(isSubmitting: bool, d: RegistrationData)
    requires !NextDisabled(PaymentFormStep, isSubmitting, d)
    ensures d.paymentForm.Some? && LineItems(d.paymentForm.value) != []
  {
    CategoryLinesExact(d.paymentForm.value.customCategories);
  }

  /** And conversely: a form with a payer and a billable line opens the gate. */
  lemma LineItemsOpenPaymentGate(d: RegistrationData)
    requires d.paymentForm.Some? && d.paymentForm.value.receivedFrom != ""
    requires LineItems(d.paymentForm.value) != []
    ensures !NextDisabled(PaymentFormStep, false, d)
  {
    CategoryLinesExact(d.paymentForm.value.customCategories);
  }

  /** Finishing needs a method, and for cash or transfer a positive amount paid. */
  lemma LastStepGate(d: RegistrationData)
    requires !NextDisabled(PaymentMethodStep, false, d)
    ensures d.paymentMethod.Some?
    // a text that is not a number slips through, since `NaN <= 0` is false
    ensures d.paymentMethod.value != PaymentMethod.Paylater ==>
              PaymentMethod.NumberOf(d.amountPaid).None? || PaymentMethod.NumberOf(d.amountPaid).value > 0
  {
  }

  /** The wizard as a whole: its data and whether a registration is in flight. */
  class Wizard {
    var data: RegistrationData
    var isSubmitting: bool

    constructor ()
      ensures data == EmptyData && !isSubmitting
    {
      data := EmptyData;
      isSubmitting := false;
    }

    /** The final submit: incomplete data is refused with nothing sent; otherwise the
        request goes out, and an accepted one returns the wizard to its empty state. */
    method HandleSubmitRegistration(checkIn: int, accepted: bool) returns (sent: Option<Payload>, success: bool)
      modifies this
      ensures sent.Some? <==> Complete(old(data))
      ensures sent.Some? ==> sent.value == RequestFor(old(data), checkIn)
      ensures success <==> sent.Some? && accepted
      ensures success ==> data == EmptyData
      ensures !success ==> data == old(data)
      ensures sent.None? ==> isSubmitting == old(isSubmitting)
      ensures sent.Some? ==> !isSubmitting
    {
      if !Complete(data) {
        return None, false;
      }
      isSubmitting := true;
      var f := data.paymentForm.value;
      var m := data.paymentMethod.value;
      var lineItems := BuildLineItems(f);
      var payload := Payload(data.patient.value, data.room.value, checkIn, f.receivedFrom, lineItems,
                             f.additionalNotes, m,
                             if m == PaymentMethod.Paylater then "0" else data.amountPaid,
                             BankAccountAsWritten(m), f.nursingFee, "MONTHLY_CONTRACT");
      sent := Some(payload);
      success := accepted;
      if accepted {
        data := EmptyData;
      }
      isSubmitting := false;
    }
  }
}
