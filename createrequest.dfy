/** Creating a request for approval: the procurement cart (adding a drafted item,
    removing one, the cart total), the checks of the submit handler for each request
    type and the request it sends. */
module CreateRequest {
  import opened Common

  datatype RequestType = Transaction | Inventory | Procurement | Document

  datatype TransactionSubtype = Expense | Revenue | CapitalInjection

  /** The request form's fields; amounts and quantities are numeric text fields. */
  datatype RequestForm = RequestForm(
    requestType: RequestType,
    transactionSubtype: TransactionSubtype,
    expenseCategoryId: string,
    amount: Entry,
    description: string,
    justification: string,
    priority: string,
    neededByDate: string,
    inventoryItemId: string,
    movementType: string,
    quantity: Entry)

  const EmptyForm: RequestForm :=
    RequestForm(Transaction, Expense, "", Blank, "", "", "MEDIUM", "", "", "IN", Blank)

  /** A procurement item in the cart or being drafted; an absent category is "". */
  datatype ProcurementItem = ProcurementItem(
    isExistingItem: bool,
    inventoryItemId: Option<string>,
    itemName: string,
    quantity: int,
    unit: string,
    unitPrice: Entry,
    specifications: string,
    category: string)

  const EmptyItem: ProcurementItem := ProcurementItem(false, None, "", 0, "", Blank, "", "")

  datatype ItemMode = Existing | New

  datatype AddItemError = IncompleteItem | MissingItemCategory

  /** The draft is complete: a name, a non-zero quantity, a unit and a price field that
      is not empty (a typed "0" counts as filled in). */
  predicate CompleteItem(item: ProcurementItem)
  {
    item.itemName != "" && item.quantity != 0 && item.unit != "" && item.unitPrice.Filled?
  }

  /** The checks before a drafted item joins the cart, and the item that joins it. */
  function CheckItem(item: ProcurementItem, mode: ItemMode): (r: Result<ProcurementItem, AddItemError>)
    ensures !CompleteItem(item) ==> r == Err(IncompleteItem)
    ensures CompleteItem(item) && mode == New && item.category == "" ==> r == Err(MissingItemCategory)
    ensures r.Ok? <==> CompleteItem(item) && (mode == New ==> item.category != "")
    // the mode, not the draft, says whether the item is already in stock
    ensures r.Ok? ==> r.value == item.(isExistingItem := mode == Existing)
  {
    if !CompleteItem(item) then Err(IncompleteItem)
    else if mode == New && item.category == "" then Err(MissingItemCategory)
    else Ok(item.(isExistingItem := mode == Existing))
  }

  /** What one item costs: `quantity * parseFloat(unitPrice || "0")`. */
  function ItemCost(item: ProcurementItem): int
  {
    item.quantity * Number(item.unitPrice)
  }

  /** `calculateProcurementTotal`. */
  function ProcurementTotal(items: seq<ProcurementItem>): int
  {
    if items == [] then 0 else ProcurementTotal(items[..|items| - 1]) + ItemCost(items[|items| - 1])
  }

  lemma {:induction false} ProcurementTotalConcat(a: seq<ProcurementItem>, b: seq<ProcurementItem>)
    ensures ProcurementTotal(a + b) == ProcurementTotal(a) + ProcurementTotal(b)
    decreases |b|
  {
    if b == [] {
      assert a + b == a;
    } else {
      var init := b[..|b| - 1];
      assert (a + b)[..|a + b| - 1] == a + init;
      assert (a + b)[|a + b| - 1] == b[|b| - 1];
      ProcurementTotalConcat(a, init);
    }
  }

  /** Removing the item at `index` takes exactly its cost out of the total. */
  lemma RemoveLowersTotal(items: seq<ProcurementItem>, index: int)
    requires 0 <= index < |items|
    ensures ProcurementTotal(RemoveAt(items, index)) == ProcurementTotal(items) - ItemCost(items[index])
  {
    var pre := items[..index];
    var x := items[index];
    var post := items[index + 1..];
    assert items == (pre + [x]) + post by {
      assert pre + [x] == items[..index + 1];
      assert items[..index + 1] + post == items;
    }
    assert RemoveAt(items, index) == pre + post;
    ProcurementTotalConcat(pre + [x], post);
    ProcurementTotalConcat(pre, post);
    ProcurementTotalSnoc(pre, x);
  }

  lemma ProcurementTotalSnoc(items: seq<ProcurementItem>, x: ProcurementItem)
    ensures ProcurementTotal(items + [x]) == ProcurementTotal(items) + ItemCost(x)
  {
    assert (items + [x])[..|items|] == items;
  }

  /** The specifications sent for an item: a new item with a category carries it as a
      "category:" prefix, joined to any text typed by " | ". */
  function SpecificationsOf(item: ProcurementItem): (spec: string)
    ensures item.isExistingItem || item.category == "" ==> spec == item.specifications
    ensures !item.isExistingItem && item.category != "" && item.specifications == "" ==>
              spec == "category:" + item.category
    ensures !item.isExistingItem && item.category != "" && item.specifications != "" ==>
              spec == "category:" + item.category + " | " + item.specifications
  {
    var s := item.specifications;
    if !item.isExistingItem && item.category != "" then
      "category:" + item.category + (if s != "" then " | " + s else "")
    else s
  }

  /** An item as the request carries it. */
  datatype ItemPayload = ItemPayload(
    inventoryItemId: Option<string>,
    itemName: string,
    quantity: int,
    unit: string,
    unitPrice: Entry,
    totalPrice: int,
    specifications: string)

  function ItemPayloadOf(item: ProcurementItem): (p: ItemPayload)
    ensures p.totalPrice == ItemCost(item)
    ensures p.itemName == item.itemName && p.quantity == item.quantity && p.unit == item.unit
    ensures p.unitPrice == item.unitPrice && p.inventoryItemId == item.inventoryItemId
    ensures p.specifications == SpecificationsOf(item)
  {
    ItemPayload(item.inventoryItemId, item.itemName, item.quantity, item.unit, item.unitPrice,
                item.quantity * Number(item.unitPrice), SpecificationsOf(item))
  }

  function ItemPayloads(items: seq<ProcurementItem>): (ps: seq<ItemPayload>)
    ensures |ps| == |items|
    ensures forall k :: 0 <= k < |items| ==> ps[k] == ItemPayloadOf(items[k])
  {
    if items == [] then [] else ItemPayloads(items[..|items| - 1]) + [ItemPayloadOf(items[|items| - 1])]
  }

  /** The total of the line prices sent is the amount of the request. */
  lemma {:induction false} ItemPricesSumToTotal(items: seq<ProcurementItem>)
    ensures PricesSum(ItemPayloads(items)) == ProcurementTotal(items)
    decreases |items|
  {
    if items != [] {
      var ps := ItemPayloads(items);
      assert ps[..|ps| - 1] == ItemPayloads(items[..|items| - 1]);
      ItemPricesSumToTotal(items[..|items| - 1]);
    }
  }

  function PricesSum(ps: seq<ItemPayload>): int
  {
    if ps == [] then 0 else PricesSum(ps[..|ps| - 1]) + ps[|ps| - 1].totalPrice
  }

  // ---------------------------------------------------------------- submit

  datatype Details =
    | NoDetails
    | TransactionDetails(transactionSubtype: TransactionSubtype, expenseCategoryId: Option<string>, amount: int)
    | InventoryDetails(inventoryItemId: string, movementType: string, quantity: int)
    | ProcurementDetails(categoryId: string, total: int, items: seq<ItemPayload>)

  datatype Payload = Payload(
    requestType: RequestType,
    description: string,
    justification: string,
    priority: string,
    neededByDate: Option<string>,
    details: Details)

  datatype SubmitError =
    | MissingDescription
    | MissingCategory
    | NonPositiveAmount
    | MissingInventoryItem
    | NonPositiveQuantity
    | NoItems

  /** `!x || x <= 0` on a numeric field. */
  predicate NotPositive(e: Entry)
  {
    e.Blank? || e.value <= 0
  }

  /** The dialog: the form, the cart and the item being drafted. */
  class RequestDialog {
    var form: RequestForm
    var procurementItems: seq<ProcurementItem>
    var newItem: ProcurementItem
    var itemMode: ItemMode

    constructor ()
      ensures form == EmptyForm && procurementItems == [] && newItem == EmptyItem && itemMode == New
    {
      form := EmptyForm;
      procurementItems := [];
      newItem := EmptyItem;
      itemMode := New;
    }

    /** Adds the drafted item to the cart when it passes the checks, then clears the draft
        and returns to drafting a new item; a refused draft changes nothing. */
    method AddProcurementItem() returns (err: Option<AddItemError>)
      modifies this
      ensures var r := CheckItem(old(newItem), old(itemMode));
              && (err.None? <==> r.Ok?)
              && (r.Err? ==> err == Some(r.error))
              && (r.Ok? ==> procurementItems == old(procurementItems) + [r.value] && newItem == EmptyItem && itemMode == New)
              && (r.Err? ==> procurementItems == old(procurementItems) && newItem == old(newItem) && itemMode == old(itemMode))
      ensures form == old(form)
    {
      var r := CheckItem(newItem, itemMode);
      if r.Err? {
        return Some(r.error);
      }
      procurementItems := procurementItems + [r.value];
      newItem := EmptyItem;
      itemMode := New;
      err := None;
    }

    /** Drops the item at `index`, keeping the others in order. */
    method RemoveProcurementItem(index: int)
      modifies this
      ensures procurementItems == RemoveAt(old(procurementItems), index)
      ensures form == old(form) && newItem == old(newItem) && itemMode == old(itemMode)
    {
      procurementItems := RemoveAt(procurementItems, index);
    }

    /** The submit handler's checks, in order, and the request it sends; the form is
        not touched. */
    method HandleSubmit() returns (r: Result<Payload, SubmitError>)
      ensures form.description == "" ==> r == Err(MissingDescription)
      ensures r.Ok? ==> && form.description != ""
                        && r.value.requestType == form.requestType
                        && r.value.description == form.description
                        && r.value.justification == form.justification
                        && r.value.priority == form.priority
                        && r.value.neededByDate == Optional(form.neededByDate)
      // a transaction needs a category unless it injects capital, and a positive amount
      ensures form.description != "" && form.requestType == Transaction ==>
                && (r.Ok? <==> (form.transactionSubtype != CapitalInjection ==> form.expenseCategoryId != "")
                               && !NotPositive(form.amount))
                && (r.Ok? ==> r.value.details == TransactionDetails(form.transactionSubtype, Optional(form.expenseCategoryId), form.amount.value))
                && (form.transactionSubtype != CapitalInjection && form.expenseCategoryId == "" ==> r == Err(MissingCategory))
                && (NotPositive(form.amount) && !(form.transactionSubtype != CapitalInjection && form.expenseCategoryId == "") ==> r == Err(NonPositiveAmount))
      // an inventory movement needs an item and a positive quantity
      ensures form.description != "" && form.requestType == Inventory ==>
                && (r.Ok? <==> form.inventoryItemId != "" && !NotPositive(form.quantity))
                && (r.Ok? ==> r.value.details == InventoryDetails(form.inventoryItemId, form.movementType, form.quantity.value))
                && (form.inventoryItemId == "" ==> r == Err(MissingInventoryItem))
                && (form.inventoryItemId != "" && NotPositive(form.quantity) ==> r == Err(NonPositiveQuantity))
      // a procurement needs a category and a non-empty cart, and asks for the cart total
      ensures form.description != "" && form.requestType == Procurement ==>
                && (r.Ok? <==> form.expenseCategoryId != "" && procurementItems != [])
                && (form.expenseCategoryId == "" ==> r == Err(MissingCategory))
                && (form.expenseCategoryId != "" && procurementItems == [] ==> r == Err(NoItems))
                && (r.Ok? ==> && r.value.details.ProcurementDetails?
                              && r.value.details.categoryId == form.expenseCategoryId
                              && r.value.details.total == ProcurementTotal(procurementItems)
                              && r.value.details.items == ItemPayloads(procurementItems))
      ensures form.description != "" && form.requestType == Document ==> r.Ok? && r.value.details == NoDetails
    {
      if form.description == "" {
        return Err(MissingDescription);
      }
      var details := NoDetails;
      if form.requestType == Transaction {
        if form.transactionSubtype != CapitalInjection && form.expenseCategoryId == "" {
          return Err(MissingCategory);
        }
        if NotPositive(form.amount) {
          return Err(NonPositiveAmount);
        }
        details := TransactionDetails(form.transactionSubtype, Optional(form.expenseCategoryId), form.amount.value);
      } else if form.requestType == Inventory {
        if form.inventoryItemId == "" {
          return Err(MissingInventoryItem);
        }
        if NotPositive(form.quantity) {
          return Err(NonPositiveQuantity);
        }
        details := InventoryDetails(form.inventoryItemId, form.movementType, form.quantity.value);
      } else if form.requestType == Procurement {
        if form.expenseCategoryId == "" {
          return Err(MissingCategory);
        }
        if |procurementItems| == 0 {
          return Err(NoItems);
        }
        details := ProcurementDetails(form.expenseCategoryId, ProcurementTotal(procurementItems), ItemPayloads(procurementItems));
      }
      r := Ok(Payload(form.requestType, form.description, form.justification, form.priority,
                      Optional(form.neededByDate), details));
    }

    /** After a successful request the dialog starts over. */
    method ResetForm()
      modifies this
      ensures form == EmptyForm && procurementItems == [] && newItem == EmptyItem && itemMode == New
    {
      form := EmptyForm;
      procurementItems := [];
      newItem := EmptyItem;
      itemMode := New;
    }
  }

  /** Adding an accepted item raises the cart total by exactly its cost. */
  lemma AddRaisesTotal(items: seq<ProcurementItem>, item: ProcurementItem, mode: ItemMode)
    requires CheckItem(item, mode).Ok?
    ensures ProcurementTotal(items + [CheckItem(item, mode).value]) == ProcurementTotal(items) + ItemCost(item)
  {
    var added := items + [CheckItem(item, mode).value];
    assert added[..|added| - 1] == items;
  }
}
