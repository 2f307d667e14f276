/** Recording a patient's expenses: three fixed lines (nursing, snacks and personal
    needs, doctor's visit) and any number of custom lines, the running total the
    dialog shows, and the list of items it actually submits. */
module AddExpense {
  import opened Common

  datatype ExpenseType = Nursing | Snack | Doctor | Custom | Medicine | Supplies

  /** A custom line as the dialog keeps it. */
  datatype ExpenseItem = ExpenseItem(id: string, enabled: bool, description: string, amount: Entry, expenseType: ExpenseType)

  /** A fixed line: its checkbox and its amount field. */
  datatype Fixed = Fixed(enabled: bool, amount: Entry)

  datatype Form = Form(nursing: Fixed, snack: Fixed, doctor: Fixed, custom: seq<ExpenseItem>)

  /** A line as it is sent to the server. */
  datatype SubmittedItem = SubmittedItem(description: string, amount: int, expenseType: ExpenseType)

  datatype Method = Cash | BankTransfer

  datatype Payload = Payload(
    bookingId: string,
    expenseItems: seq<SubmittedItem>,
    paymentMethod: Method,
    bankAccountName: Option<string>,
    notes: Option<string>,
    expenseDate: string)

  const DefaultBankAccount: string := "BCA 0554 0103 5208 507"

  const Unticked: Fixed := Fixed(false, Blank)

  /** The form as the dialog opens: nothing ticked, nothing typed, no custom line. */
  const EmptyForm: Form := Form(Unticked, Unticked, Unticked, [])

  // ------------------------------------------------------------ fixed lines

  /** Ticking or unticking a fixed line; unticking also empties its amount. */
  function Toggle(f: Fixed, checked: bool): (g: Fixed)
    ensures g.enabled == checked
    ensures checked ==> g.amount == f.amount
    ensures !checked ==> g.amount == Blank && Contribution(g.enabled, g.amount) == 0
  {
    if checked then Fixed(true, f.amount) else Fixed(false, Blank)
  }

  /** Typing into a fixed line's amount; a non-empty amount ticks the line. */
  function TypeAmount(f: Fixed, raw: Entry): (g: Fixed)
    ensures g.amount == raw
    ensures g.enabled <==> f.enabled || raw.Filled?
    ensures raw.Filled? ==> Contribution(g.enabled, g.amount) == raw.value
  {
    Fixed(f.enabled || raw.Filled?, raw)
  }

  // ----------------------------------------------------------- custom lines

  /** A new custom line: ticked, with no description and no amount. */
  function AddCustomExpense(cs: seq<ExpenseItem>, id: string): (r: seq<ExpenseItem>)
    ensures |r| == |cs| + 1 && r[..|cs|] == cs
    ensures r[|cs|] == ExpenseItem(id, true, "", Blank, Custom)
  {
    cs + [ExpenseItem(id, true, "", Blank, Custom)]
  }

  /** Drops every line carrying `id`, keeping the others in order. */
  function RemoveCustomExpense(cs: seq<ExpenseItem>, id: string): (r: seq<ExpenseItem>)
    ensures |r| <= |cs|
    ensures forall e :: e in r <==> e in cs && e.id != id
    ensures (forall i :: 0 <= i < |cs| ==> cs[i].id != id) ==> r == cs
  {
    if cs == [] then []
    else
      var rest := RemoveCustomExpense(cs[..|cs| - 1], id);
      assert cs == cs[..|cs| - 1] + [cs[|cs| - 1]];
      if cs[|cs| - 1].id == id then rest else rest + [cs[|cs| - 1]]
  }

  /** Removal works piecewise, so the surviving lines keep their relative order. */
  lemma {:induction false} RemoveConcat(a: seq<ExpenseItem>, b: seq<ExpenseItem>, id: string)
    ensures RemoveCustomExpense(a + b, id) == RemoveCustomExpense(a, id) + RemoveCustomExpense(b, id)
    decreases |b|
  {
    if b == [] {
      assert a + b == a;
    } else {
      var init := b[..|b| - 1];
      var last := b[|b| - 1];
      assert b == init + [last];
      assert (a + b)[..|a + b| - 1] == a + init;
      assert (a + b)[|a + b| - 1] == last;
      RemoveConcat(a, init, id);
    }
  }

  /** Removing a freshly added line gives back the list as it was. */
  lemma RemoveUndoesAdd(cs: seq<ExpenseItem>, id: string)
    requires forall i :: 0 <= i < |cs| ==> cs[i].id != id
    ensures RemoveCustomExpense(AddCustomExpense(cs, id), id) == cs
  {
    var added := AddCustomExpense(cs, id);
    assert added[..|added| - 1] == cs;
  }

  /** The field of a custom line one edit changes. */
  datatype FieldUpdate = SetEnabled(enabled: bool) | SetDescription(description: string) | SetAmount(amount: Entry)

  /** `{ ...exp, [field]: value }`: the named field takes the new value, every other
      field is kept. */
  function Apply(e: ExpenseItem, u: FieldUpdate): (r: ExpenseItem)
    ensures r.id == e.id && r.expenseType == e.expenseType
    ensures r.enabled == (if u.SetEnabled? then u.enabled else e.enabled)
    ensures r.description == (if u.SetDescription? then u.description else e.description)
    ensures r.amount == (if u.SetAmount? then u.amount else e.amount)
  {
    match u
    case SetEnabled(b) => e.(enabled := b)
    case SetDescription(d) => e.(description := d)
    case SetAmount(a) => e.(amount := a)
  }

  /** Applies one edit to the lines carrying `id`, leaving every other line untouched. */
  function UpdateCustomExpense(cs: seq<ExpenseItem>, id: string, u: FieldUpdate): (r: seq<ExpenseItem>)
    ensures |r| == |cs|
    ensures forall i :: 0 <= i < |cs| && cs[i].id == id ==> r[i] == Apply(cs[i], u)
    ensures forall i :: 0 <= i < |cs| && cs[i].id != id ==> r[i] == cs[i]
  {
    if cs == [] then []
    else
      var last := cs[|cs| - 1];
      UpdateCustomExpense(cs[..|cs| - 1], id, u) + [if last.id == id then Apply(last, u) else last]
  }

  // ------------------------------------------------------------------ total

  function CustomTotal(cs: seq<ExpenseItem>): int
  {
    if cs == [] then 0
    else CustomTotal(cs[..|cs| - 1]) + Contribution(cs[|cs| - 1].enabled, cs[|cs| - 1].amount)
  }

  function FixedTotal(f: Form): int
  {
    Contribution(f.nursing.enabled, f.nursing.amount)
      + Contribution(f.snack.enabled, f.snack.amount)
      + Contribution(f.doctor.enabled, f.doctor.amount)
  }

  /** The total the dialog shows and reports: every ticked line with an amount,
      whether or not a custom line has a description. */
  function Total(f: Form): int
  {
    FixedTotal(f) + CustomTotal(f.custom)
  }

  /** `calculateTotal`, accumulating line by line. */
  method CalculateTotal(f: Form) returns (total: int)
    ensures total == Total(f)
  {
    total := 0;
    if f.nursing.enabled && f.nursing.amount.Filled? {
      total := total + f.nursing.amount.value;
    }
    if f.snack.enabled && f.snack.amount.Filled? {
      total := total + f.snack.amount.value;
    }
    if f.doctor.enabled && f.doctor.amount.Filled? {
      total := total + f.doctor.amount.value;
    }
    var i := 0;
    while i < |f.custom|
      invariant 0 <= i <= |f.custom|
      invariant total == FixedTotal(f) + CustomTotal(f.custom[..i])
    {
      var e := f.custom[i];
      assert f.custom[..i + 1][..i] == f.custom[..i];
      if e.enabled && e.amount.Filled? {
        total := total + e.amount.value;
      }
      i := i + 1;
    }
    assert f.custom[..|f.custom|] == f.custom;
  }

  /** A new custom line has no amount yet, so adding one leaves the total unchanged. */
  lemma AddKeepsTotal(f: Form, id: string)
    ensures Total(f.(custom := AddCustomExpense(f.custom, id))) == Total(f)
  {
    var cs := AddCustomExpense(f.custom, id);
    assert cs[..|cs| - 1] == f.custom;
  }

  // ------------------------------------------------------------ submission

  /** A custom line is submitted only when it is ticked and has both an amount and a description. */
  predicate Submittable(e: ExpenseItem)
  {
    e.enabled && e.amount.Filled? && e.description != ""
  }

  function CustomItems(cs: seq<ExpenseItem>): seq<SubmittedItem>
  {
    if cs == [] then []
    else
      var last := cs[|cs| - 1];
      CustomItems(cs[..|cs| - 1])
        + (if Submittable(last) then [SubmittedItem(last.description, last.amount.value, last.expenseType)] else [])
  }

  function FixedLine(f: Fixed, description: string, kind: ExpenseType): seq<SubmittedItem>
  {
    if f.enabled && f.amount.Filled? then [SubmittedItem(description, f.amount.value, kind)] else []
  }

  /** The submitted items: nursing, snacks, doctor, then the custom lines in list order. */
  function Items(f: Form): seq<SubmittedItem>
  {
    FixedLine(f.nursing, "Perawatan", Nursing)
      + FixedLine(f.snack, "Snack/Keb. Diri", Snack)
      + FixedLine(f.doctor, "Kontrol dokter", Doctor)
      + CustomItems(f.custom)
  }

  /** Pushes a fixed line's item when it is ticked and has an amount. */
  method PushFixed(items: seq<SubmittedItem>, f: Fixed, description: string, kind: ExpenseType)
    returns (r: seq<SubmittedItem>)
    ensures r == items + FixedLine(f, description, kind)
  {
    r := items;
    if f.enabled && f.amount.Filled? {
      r := r + [SubmittedItem(description, f.amount.value, kind)];
    }
  }

  /** One more custom line adds its item, if it is submittable, at the end. */
  lemma CustomItemsStep(cs: seq<ExpenseItem>, i: nat)
    requires i < |cs|
    ensures CustomItems(cs[..i + 1]) == CustomItems(cs[..i])
              + (if Submittable(cs[i]) then [SubmittedItem(cs[i].description, cs[i].amount.value, cs[i].expenseType)] else [])
  {
    assert cs[..i + 1][..i] == cs[..i];
  }

  /** The item list of the submit handler, built by pushing line after line. */
  method BuildExpenseItems(f: Form) returns (items: seq<SubmittedItem>)
    ensures items == Items(f)
  {
    items := PushFixed([], f.nursing, "Perawatan", Nursing);
    items := PushFixed(items, f.snack, "Snack/Keb. Diri", Snack);
    items := PushFixed(items, f.doctor, "Kontrol dokter", Doctor);
    ghost var fixed := items;
    var i := 0;
    while i < |f.custom|
      invariant 0 <= i <= |f.custom|
      invariant items == fixed + CustomItems(f.custom[..i])
    {
      var e := f.custom[i];
      CustomItemsStep(f.custom, i);
      if e.enabled && e.amount.Filled? && e.description != "" {
        var item := SubmittedItem(e.description, e.amount.value, e.expenseType);
        assert (fixed + CustomItems(f.custom[..i])) + [item] == fixed + (CustomItems(f.custom[..i]) + [item]);
        items := items + [item];
      } else {
        assert CustomItems(f.custom[..i + 1]) == CustomItems(f.custom[..i]) + [];
      }
      i := i + 1;
    }
    assert f.custom[..|f.custom|] == f.custom;
  }

  /** The fixed lines always come first and in the fixed order. */
  lemma ItemsOrder(f: Form)
    requires f.nursing.enabled && f.nursing.amount.Filled?
    ensures Items(f)[0] == SubmittedItem("Perawatan", f.nursing.amount.value, Nursing)
    ensures f.snack.enabled && f.snack.amount.Filled? ==> Items(f)[1].expenseType == Snack
  {
  }

  function ItemsSum(xs: seq<SubmittedItem>): int
  {
    if xs == [] then 0 else ItemsSum(xs[..|xs| - 1]) + xs[|xs| - 1].amount
  }

  lemma {:induction false} ItemsSumConcat(a: seq<SubmittedItem>, b: seq<SubmittedItem>)
    ensures ItemsSum(a + b) == ItemsSum(a) + ItemsSum(b)
    decreases |b|
  {
    if b == [] {
      assert a + b == a;
    } else {
      var init := b[..|b| - 1];
      assert (a + b)[..|a + b| - 1] == a + init;
      assert (a + b)[|a + b| - 1] == b[|b| - 1];
      ItemsSumConcat(a, init);
    }
  }

  /** What the displayed total counts beyond what is submitted: the ticked custom
      lines with an amount but no description. */
  function UnsubmittedTotal(cs: seq<ExpenseItem>): int
  {
    if cs == [] then 0
    else
      var last := cs[|cs| - 1];
      UnsubmittedTotal(cs[..|cs| - 1])
        + (if last.enabled && last.amount.Filled? && last.description == "" then last.amount.value else 0)
  }

  lemma {:induction false} CustomSplit(cs: seq<ExpenseItem>)
    ensures CustomTotal(cs) == ItemsSum(CustomItems(cs)) + UnsubmittedTotal(cs)
    decreases |cs|
  {
    if cs != [] {
      var init := cs[..|cs| - 1];
      var last := cs[|cs| - 1];
      CustomSplit(init);
      if Submittable(last) {
        var tail := [SubmittedItem(last.description, last.amount.value, last.expenseType)];
        ItemsSumConcat(CustomItems(init), tail);
        assert tail[..0] == [];
      } else {
        assert CustomItems(cs) == CustomItems(init) + [];
        assert CustomItems(init) + [] == CustomItems(init);
      }
    }
  }

  lemma FixedSum(f: Form)
    ensures ItemsSum(FixedLine(f.nursing, "Perawatan", Nursing) + FixedLine(f.snack, "Snack/Keb. Diri", Snack)
                     + FixedLine(f.doctor, "Kontrol dokter", Doctor)) == FixedTotal(f)
  {
    var a := FixedLine(f.nursing, "Perawatan", Nursing);
    var b := FixedLine(f.snack, "Snack/Keb. Diri", Snack);
    var c := FixedLine(f.doctor, "Kontrol dokter", Doctor);
    ItemsSumConcat(a, b);
    ItemsSumConcat(a + b, c);
  }

  /** The displayed total is the submitted sum plus the ticked custom lines that lack
      a description; with non-negative amounts the submitted sum never exceeds it. */
  lemma TotalVersusSubmitted(f: Form)
    ensures Total(f) == ItemsSum(Items(f)) + UnsubmittedTotal(f.custom)
  {
    var fixed := FixedLine(f.nursing, "Perawatan", Nursing) + FixedLine(f.snack, "Snack/Keb. Diri", Snack)
                 + FixedLine(f.doctor, "Kontrol dokter", Doctor);
    assert Items(f) == fixed + CustomItems(f.custom);
    ItemsSumConcat(fixed, CustomItems(f.custom));
    FixedSum(f);
    CustomSplit(f.custom);
  }

  lemma {:induction false} UnsubmittedNonNegative(cs: seq<ExpenseItem>)
    requires forall i :: 0 <= i < |cs| ==> Number(cs[i].amount) >= 0
    ensures UnsubmittedTotal(cs) >= 0
    decreases |cs|
  {
    if cs != [] {
      UnsubmittedNonNegative(cs[..|cs| - 1]);
    }
  }

  lemma SubmittedAtMostTotal(f: Form)
    requires forall i :: 0 <= i < |f.custom| ==> Number(f.custom[i].amount) >= 0
    ensures ItemsSum(Items(f)) <= Total(f)
  {
    TotalVersusSubmitted(f);
    UnsubmittedNonNegative(f.custom);
  }

  /** A ticked line with an amount of 50000 and no description is shown and reported
      in a total of 150000, while only the 100000 nursing line is submitted. */
  lemma ReportedTotalOvercounts()
    ensures var f := Form(Fixed(true, Filled(100000)), Unticked, Unticked,
                          [ExpenseItem("custom-1", true, "", Filled(50000), Custom)]);
            Total(f) == 150000 && ItemsSum(Items(f)) == 100000
  {
    var f := Form(Fixed(true, Filled(100000)), Unticked, Unticked,
                  [ExpenseItem("custom-1", true, "", Filled(50000), Custom)]);
    TotalVersusSubmitted(f);
    assert f.custom[..0] == [];
  }

  /** The total of what is actually recorded: the fixed lines and the custom lines that
      will be submitted. This is the figure the success message should report. */
  function RecordedTotal(f: Form): int
  {
    FixedTotal(f) + SubmittableTotal(f.custom)
  }

  function SubmittableTotal(cs: seq<ExpenseItem>): int
  {
    if cs == [] then 0
    else
      var last := cs[|cs| - 1];
      SubmittableTotal(cs[..|cs| - 1]) + (if Submittable(last) then last.amount.value else 0)
  }

  lemma {:induction false} SubmittableTotalIsItemsSum(cs: seq<ExpenseItem>)
    ensures SubmittableTotal(cs) == ItemsSum(CustomItems(cs))
    decreases |cs|
  {
    if cs != [] {
      var init := cs[..|cs| - 1];
      var last := cs[|cs| - 1];
      SubmittableTotalIsItemsSum(init);
      if Submittable(last) {
        var tail := [SubmittedItem(last.description, last.amount.value, last.expenseType)];
        ItemsSumConcat(CustomItems(init), tail);
        assert tail[..0] == [];
      } else {
        assert CustomItems(init) + [] == CustomItems(init);
      }
    }
  }

  /** The reported figure is exactly the sum of the submitted items. */
  lemma RecordedTotalMatchesItems(f: Form)
    ensures RecordedTotal(f) == ItemsSum(Items(f))
  {
    var fixed := FixedLine(f.nursing, "Perawatan", Nursing) + FixedLine(f.snack, "Snack/Keb. Diri", Snack)
                 + FixedLine(f.doctor, "Kontrol dokter", Doctor);
    assert Items(f) == fixed + CustomItems(f.custom);
    ItemsSumConcat(fixed, CustomItems(f.custom));
    FixedSum(f);
    SubmittableTotalIsItemsSum(f.custom);
  }

  // ------------------------------------------------- typing a custom amount

  /** The custom amount field's change handler as written: both edits are computed
      from the list the row was drawn from, so when the row was unticked the second
      edit (tick it) replaces the first (store the amount). */
  function TypeCustomAmountAsWritten(cs: seq<ExpenseItem>, k: int, raw: Entry): (r: seq<ExpenseItem>)
    requires 0 <= k < |cs|
    ensures |r| == |cs|
    // a non-empty amount typed into an unticked line: ticked, with the old amount
    ensures raw.Filled? && !cs[k].enabled ==> r[k].enabled && r[k].amount == cs[k].amount
    // otherwise the amount is stored and the tick is kept
    ensures !(raw.Filled? && !cs[k].enabled) ==> r[k].amount == raw && r[k].enabled == cs[k].enabled
    ensures r[k].description == cs[k].description && r[k].id == cs[k].id
    ensures forall i :: 0 <= i < |cs| && cs[i].id != cs[k].id ==> r[i] == cs[i]
  {
    var stored := UpdateCustomExpense(cs, cs[k].id, SetAmount(raw));
    if raw.Filled? && !cs[k].enabled then UpdateCustomExpense(cs, cs[k].id, SetEnabled(true)) else stored
  }

  /** Typing 25000 into an unticked custom line ticks it but loses the amount. */
  lemma TypedAmountLost()
    ensures var cs := [ExpenseItem("custom-1", false, "Obat", Blank, Custom)];
            var r := TypeCustomAmountAsWritten(cs, 0, Filled(25000));
            r[0].enabled && r[0].amount == Blank
  {
    var cs := [ExpenseItem("custom-1", false, "Obat", Blank, Custom)];
    var r := UpdateCustomExpense(cs, "custom-1", SetEnabled(true));
    assert r[0] == Apply(cs[0], SetEnabled(true));
  }

  /** The change handler with the two edits applied one after the other: the typed
      amount is stored, and a non-empty amount ticks the line. */
  function TypeCustomAmount(cs: seq<ExpenseItem>, k: int, raw: Entry): (r: seq<ExpenseItem>)
    requires 0 <= k < |cs|
    ensures |r| == |cs|
    ensures r[k].amount == raw
    ensures r[k].enabled <==> cs[k].enabled || raw.Filled?
    ensures r[k].description == cs[k].description && r[k].id == cs[k].id
    ensures forall i :: 0 <= i < |cs| && cs[i].id != cs[k].id ==> r[i] == cs[i]
  {
    var stored := UpdateCustomExpense(cs, cs[k].id, SetAmount(raw));
    if raw.Filled? && !cs[k].enabled then UpdateCustomExpense(stored, cs[k].id, SetEnabled(true)) else stored
  }

  // ------------------------------------------------------------ the dialog

  /** The save button: greyed out while submitting and while the shown total is not positive. */
  predicate SubmitDisabled(isSubmitting: bool, f: Form)
  {
    isSubmitting || Total(f) <= 0
  }

  /** The dialog's state. */
  class Dialog {
    var form: Form
    var paymentMethod: Method
    var bankAccountName: string
    var notes: string
    var expenseDate: string
    var isSubmitting: bool

    /** `today` is the date the browser reports, as the date input shows it. */
    constructor (today: string)
      ensures form == EmptyForm && paymentMethod == Cash && bankAccountName == DefaultBankAccount
      ensures notes == "" && expenseDate == today && !isSubmitting
    {
      form := EmptyForm;
      paymentMethod := Cash;
      bankAccountName := DefaultBankAccount;
      notes := "";
      expenseDate := today;
      isSubmitting := false;
    }

    /** The submit handler. With no qualifying line nothing is sent. Otherwise the
        request carries exactly the built items, and when the server accepts it the
        success message reports the displayed total, which counts the ticked custom
        lines left out for want of a description, and the form empties. */
    method HandleSubmit(bookingId: string, today: string, accepted: bool) returns (sent: Option<Payload>, reported: Option<int>)
      modifies this
      ensures Items(old(form)) == [] ==> sent == None && reported == None
      ensures Items(old(form)) != [] ==>
                sent == Some(Payload(bookingId, Items(old(form)), old(paymentMethod),
                                     if old(paymentMethod) == BankTransfer then Some(old(bankAccountName)) else None,
                                     Optional(old(notes)), old(expenseDate)))
      ensures reported.Some? <==> sent.Some? && accepted
      ensures reported.Some? ==> && reported.value == Total(old(form))
                                 && reported.value == ItemsSum(sent.value.expenseItems) + UnsubmittedTotal(old(form).custom)
      ensures reported.Some? ==> form == EmptyForm && paymentMethod == Cash && notes == "" && expenseDate == today
      ensures reported.None? ==> form == old(form) && paymentMethod == old(paymentMethod)
                                 && notes == old(notes) && expenseDate == old(expenseDate)
      ensures bankAccountName == old(bankAccountName)
      ensures sent.None? ==> isSubmitting == old(isSubmitting)
      ensures sent.Some? ==> !isSubmitting
    {
      var items := BuildExpenseItems(form);
      reported := None;
      if |items| == 0 {
        sent := None;
        return;
      }
      isSubmitting := true;
      var bank := if paymentMethod == BankTransfer then Some(bankAccountName) else None;
      sent := Some(Payload(bookingId, items, paymentMethod, bank, Optional(notes), expenseDate));
      if accepted {
        var total := CalculateTotal(form);
        TotalVersusSubmitted(form);
        reported := Some(total);
        form := EmptyForm;
        paymentMethod := Cash;
        notes := "";
        expenseDate := today;
      }
      isSubmitting := false;
    }
  }
}
