/** The registration wizard's payment step: the fixed fees (nursing, snacks and
    personal needs, doctor's check-up), the custom categories, the coupling between a
    fee's checkbox and its amount, and the running total the step shows. */
module PaymentForm {
  import opened Common

  /** A custom category as the form keeps it. */
  datatype Category = Category(id: string, enabled: bool, description: string, amount: Entry)

  /** The form's values; an absent optional field reads as unticked, empty or no categories. */
  datatype FormData = FormData(
    receivedFrom: string,
    nursingEnabled: bool,
    nursingFee: Entry,
    snackEnabled: bool,
    snackFee: Entry,
    doctorEnabled: bool,
    doctorCheckup: Entry,
    customCategories: seq<Category>,
    additionalNotes: string)

  /** The values the form opens with. */
  const DefaultForm: FormData := FormData("", false, Blank, false, Blank, false, Blank, [], "")

  /** The name of whoever pays is required: an empty field shows the error. */
  function ReceivedFromError(value: string): (e: Option<string>)
    ensures e.Some? <==> value == ""
    ensures e.Some? ==> e.value == "Nama penerima harus diisi"
  {
    if value == "" then Some("Nama penerima harus diisi") else None
  }

  // ------------------------------------------------------------ fixed fees

  datatype FixedItem = Nursing | Snack | Doctor

  function Enabled(f: FormData, item: FixedItem): bool
  {
    match item
    case Nursing => f.nursingEnabled
    case Snack => f.snackEnabled
    case Doctor => f.doctorEnabled
  }

  function Fee(f: FormData, item: FixedItem): Entry
  {
    match item
    case Nursing => f.nursingFee
    case Snack => f.snackFee
    case Doctor => f.doctorCheckup
  }

  /** `g` differs from `f` at most in the checkbox and the fee of `item`. */
  predicate OnlyItemChanged(f: FormData, g: FormData, item: FixedItem)
  {
    && g.receivedFrom == f.receivedFrom
    && g.customCategories == f.customCategories
    && g.additionalNotes == f.additionalNotes
    && forall other: FixedItem :: other != item ==> Enabled(g, other) == Enabled(f, other) && Fee(g, other) == Fee(f, other)
  }

  function SetFixed(f: FormData, item: FixedItem, enabled: bool, fee: Entry): FormData
  {
    match item
    case Nursing => f.(nursingEnabled := enabled, nursingFee := fee)
    case Snack => f.(snackEnabled := enabled, snackFee := fee)
    case Doctor => f.(doctorEnabled := enabled, doctorCheckup := fee)
  }

  /** Ticking or unticking a fixed fee; unticking also empties the fee. */
  function ToggleFixed(f: FormData, item: FixedItem, checked: bool): (g: FormData)
    ensures Enabled(g, item) == checked
    ensures checked ==> Fee(g, item) == Fee(f, item)
    ensures !checked ==> Fee(g, item) == Blank
    ensures OnlyItemChanged(f, g, item)
  {
    SetFixed(f, item, checked, if checked then Fee(f, item) else Blank)
  }

  /** Typing a fee; a non-empty fee ticks its checkbox, an empty one leaves it as it was. */
  function TypeFee(f: FormData, item: FixedItem, raw: Entry): (g: FormData)
    ensures Fee(g, item) == raw
    ensures Enabled(g, item) <==> Enabled(f, item) || raw.Filled?
    ensures OnlyItemChanged(f, g, item)
  {
    SetFixed(f, item, Enabled(f, item) || raw.Filled?, raw)
  }

  // ----------------------------------------------------- custom categories

  /** A new category: ticked, with no description and no amount. */
  function AddCustomCategory(cs: seq<Category>, id: string): (r: seq<Category>)
    ensures |r| == |cs| + 1 && r[..|cs|] == cs
    ensures r[|cs|] == Category(id, true, "", Blank)
  {
    cs + [Category(id, true, "", Blank)]
  }

  /** Drops the categories carrying `id`, keeping the others in order. */
  function RemoveCustomCategory(cs: seq<Category>, id: string): (r: seq<Category>)
    ensures |r| <= |cs|
    ensures forall c :: c in r <==> c in cs && c.id != id
    ensures (forall i :: 0 <= i < |cs| ==> cs[i].id != id) ==> r == cs
  {
    if cs == [] then []
    else
      var rest := RemoveCustomCategory(cs[..|cs| - 1], id);
      assert cs == cs[..|cs| - 1] + [cs[|cs| - 1]];
      if cs[|cs| - 1].id == id then rest else rest + [cs[|cs| - 1]]
  }

  /** Removal works piecewise, so the kept categories keep their order and multiplicity. */
  lemma {:induction false} RemoveCategoryConcat(a: seq<Category>, b: seq<Category>, id: string)
    ensures RemoveCustomCategory(a + b, id) == RemoveCustomCategory(a, id) + RemoveCustomCategory(b, id)
    decreases |b|
  {
    if b == [] {
      assert a + b == a;
    } else {
      var init := b[..|b| - 1];
      var last := b[|b| - 1];
      assert b == init + [last];
      assert (a + b)[..|a + b| - 1] == a + init;
      assert (a + b)[|a + b| - 1] == last;
      RemoveCategoryConcat(a, init, id);
    }
  }

  /** Removing a freshly added category gives back the list as it was. */
  lemma RemoveUndoesAdd(cs: seq<Category>, id: string)
    requires forall i :: 0 <= i < |cs| ==> cs[i].id != id
    ensures RemoveCustomCategory(AddCustomCategory(cs, id), id) == cs
  {
    var added := AddCustomCategory(cs, id);
    assert added[..|added| - 1] == cs;
  }

  /** `cs` and `r` agree everywhere except at index `i`, which keeps its id. */
  predicate OnlyIndexChanged(cs: seq<Category>, r: seq<Category>, i: int)
    requires 0 <= i < |cs|
  {
    |r| == |cs| && r[i].id == cs[i].id && forall j :: 0 <= j < |cs| && j != i ==> r[j] == cs[j]
  }

  /** The checkbox of the category at `index`. */
  function SetCategoryEnabled(cs: seq<Category>, index: nat, checked: bool): (r: seq<Category>)
    requires index < |cs|
    ensures OnlyIndexChanged(cs, r, index)
    ensures r[index].enabled == checked
    ensures r[index].description == cs[index].description && r[index].amount == cs[index].amount
  {
    cs[index := cs[index].(enabled := checked)]
  }

  /** The description of the category at `index`. */
  function SetCategoryDescription(cs: seq<Category>, index: nat, text: string): (r: seq<Category>)
    requires index < |cs|
    ensures OnlyIndexChanged(cs, r, index)
    ensures r[index].description == text
    ensures r[index].enabled == cs[index].enabled && r[index].amount == cs[index].amount
  {
    cs[index := cs[index].(description := text)]
  }

  /** The amount of the category at `index`; a non-empty amount ticks it, an empty one
      keeps its checkbox. Both fields change in one update. */
  function SetCategoryAmount(cs: seq<Category>, index: nat, raw: Entry): (r: seq<Category>)
    requires index < |cs|
    ensures OnlyIndexChanged(cs, r, index)
    ensures r[index].amount == raw
    ensures r[index].enabled <==> raw.Filled? || cs[index].enabled
    ensures r[index].description == cs[index].description
  {
    cs[index := cs[index].(amount := raw, enabled := if raw.Filled? then true else cs[index].enabled)]
  }

  // ------------------------------------------------------------------ total

  function CategoryContribution(c: Category): int
  {
    Contribution(c.enabled, c.amount)
  }

  function CategoriesTotal(cs: seq<Category>): int
  {
    if cs == [] then 0 else CategoriesTotal(cs[..|cs| - 1]) + CategoryContribution(cs[|cs| - 1])
  }

  function FixedTotal(f: FormData): int
  {
    Contribution(f.nursingEnabled, f.nursingFee)
      + Contribution(f.snackEnabled, f.snackFee)
      + Contribution(f.doctorEnabled, f.doctorCheckup)
  }

  /** The total: every ticked fee with a value and every ticked category with an amount. */
  function Total(f: FormData): int
  {
    FixedTotal(f) + CategoriesTotal(f.customCategories)
  }

  /** The running total under the form, accumulating line by line. */
  method FormTotal(f: FormData) returns (total: int)
    ensures total == Total(f)
  {
    total := 0;
    if f.nursingEnabled && f.nursingFee.Filled? {
      total := total + f.nursingFee.value;
    }
    if f.snackEnabled && f.snackFee.Filled? {
      total := total + f.snackFee.value;
    }
    if f.doctorEnabled && f.doctorCheckup.Filled? {
      total := total + f.doctorCheckup.value;
    }
    var cs := f.customCategories;
    var i := 0;
    while i < |cs|
      invariant 0 <= i <= |cs|
      invariant total == FixedTotal(f) + CategoriesTotal(cs[..i])
    {
      assert cs[..i + 1][..i] == cs[..i];
      if cs[i].enabled && cs[i].amount.Filled? {
        total := total + cs[i].amount.value;
      }
      i := i + 1;
    }
    assert cs[..|cs|] == cs;
  }

  /** Unticking a fee takes exactly its share out of the total. */
  lemma UncheckRemovesShare(f: FormData, item: FixedItem)
    ensures Total(ToggleFixed(f, item, false)) == Total(f) - Contribution(Enabled(f, item), Fee(f, item))
  {
  }

  /** Typing a value into a fee makes it count, at that value, whatever its checkbox was. */
  lemma TypedFeeCounts(f: FormData, item: FixedItem, v: int)
    ensures Total(TypeFee(f, item, Filled(v))) == Total(f) - Contribution(Enabled(f, item), Fee(f, item)) + v
  {
  }

  /** Replacing one category changes the total by the difference of the two shares. */
  lemma {:induction false} CategoriesTotalUpdate(cs: seq<Category>, i: nat, c: Category)
    requires i < |cs|
    ensures CategoriesTotal(cs[i := c]) == CategoriesTotal(cs) - CategoryContribution(cs[i]) + CategoryContribution(c)
    decreases |cs|
  {
    var r := cs[i := c];
    var n := |cs| - 1;
    assert r[..n] == if i == n then cs[..n] else cs[..n][i := c];
    if i < n {
      CategoriesTotalUpdate(cs[..n], i, c);
    }
  }

  /** Typing an amount into a category makes it count at that amount. */
  lemma TypedAmountCounts(f: FormData, index: nat, v: int)
    requires index < |f.customCategories|
    ensures var g := f.(customCategories := SetCategoryAmount(f.customCategories, index, Filled(v)));
            Total(g) == Total(f) - CategoryContribution(f.customCategories[index]) + v
  {
    var cs := f.customCategories;
    var r := SetCategoryAmount(cs, index, Filled(v));
    assert r == cs[index := r[index]];
    CategoriesTotalUpdate(cs, index, r[index]);
  }

  /** Unticking a category takes its share out of the total. */
  lemma UncheckCategoryRemovesShare(f: FormData, index: nat)
    requires index < |f.customCategories|
    ensures var g := f.(customCategories := SetCategoryEnabled(f.customCategories, index, false));
            Total(g) == Total(f) - CategoryContribution(f.customCategories[index])
  {
    var cs := f.customCategories;
    var r := SetCategoryEnabled(cs, index, false);
    assert r == cs[index := r[index]];
    CategoriesTotalUpdate(cs, index, r[index]);
  }

  /** A new category has no amount yet, so adding one leaves the total unchanged. */
  lemma AddKeepsTotal(f: FormData, id: string)
    ensures Total(f.(customCategories := AddCustomCategory(f.customCategories, id))) == Total(f)
  {
    var cs := AddCustomCategory(f.customCategories, id);
    assert cs[..|cs| - 1] == f.customCategories;
  }

  /** The form as it opens totals nothing and shows the missing-name error. */
  lemma DefaultFormEmpty()
    ensures Total(DefaultForm) == 0
    ensures ReceivedFromError(DefaultForm.receivedFrom).Some?
  {
  }
}
