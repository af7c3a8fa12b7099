/** The daily-requirements view: a customer's list of wanted products, typed into a form of
    rows and recorded as one pending requirement; status buttons that move a requirement one
    step along Pending, Quoted, Confirmed, Delivered; and the search box. */
module Requirements {
  import opened Wrappers
  import opened Types
  import Seqs
  import Text
  import AppStore
  import FormInput

  /** The create modal: open or not, the chosen customer id, the rows, the notes and the
      source of the request. */
  datatype Form = Form(
    showCreateModal: bool, selectedCustomer: string, items: seq<RequirementItem>,
    notes: string, source: RequirementSource)

  /** The row the form starts with and `addItem` appends: no product, 1 kg, estimated price 0,
      empty notes. */
  const BlankRow: RequirementItem := RequirementItem("", 1, "kg", Some(0), Some(""))

  // ---------------------------------------------------------------------------
  // Editing the rows
  // ---------------------------------------------------------------------------

  /** `addItem()`: appends a blank row. */
  function AddItem(items: seq<RequirementItem>): (r: seq<RequirementItem>)
    ensures |r| == |items| + 1 && r[..|items|] == items
    ensures r[|items|].productName == "" && r[|items|].quantity == 1
    ensures r[|items|].unit == "kg" && r[|items|].estimatedPrice == Some(0)
    ensures r[|items|].notes == Some("")
  {
    items + [BlankRow]
  }

  /** The four fields the row editor writes. A typed number arrives as its parse (`None` when
      it does not parse). */
  datatype Edit =
    | SetProductName(name: string)
    | SetQuantity(parsed: Option<int>)
    | SetUnit(unit: string)
    | SetEstimatedPrice(parsed: Option<int>)

  /** `{ ...row, [field]: value }`, where a typed quantity is `parseInt(…) || 1` and a typed
      price `parseFloat(…) || 0`. */
  function EditedRow(row: RequirementItem, edit: Edit): RequirementItem
  {
    match edit
    case SetProductName(n) => row.(productName := n)
    case SetQuantity(parsed) => row.(quantity := FormInput.CountOrOne(parsed))
    case SetUnit(u) => row.(unit := u)
    case SetEstimatedPrice(parsed) => row.(estimatedPrice := Some(FormInput.NumberOrZero(parsed)))
  }

  /** No row holds quantity 0: the blank row has 1 and a typed quantity falls back to 1. */
  predicate NonZeroQuantities(items: seq<RequirementItem>)
  {
    forall i :: 0 <= i < |items| ==> items[i].quantity != 0
  }

  /** A typed quantity that does not parse, or parses to 0, is stored as 1 and any other parse
      is kept; a typed price that does not parse is stored as 0, and a parsed one is kept. */
  lemma TypedInputFallbacks(row: RequirementItem, parsed: Option<int>)
    ensures var r := EditedRow(row, SetQuantity(parsed));
      r.quantity != 0
      && (parsed.Some? && parsed.value != 0 ==> r.quantity == parsed.value)
      && (parsed.None? || parsed.value == 0 ==> r.quantity == 1)
    ensures var r := EditedRow(row, SetEstimatedPrice(parsed));
      (parsed.None? ==> r.estimatedPrice == Some(0))
      && (parsed.Some? ==> r.estimatedPrice == Some(parsed.value))
  {
  }

  /** Adding, editing and removing rows never brings in a quantity of 0. */
  lemma RowEditsKeepQuantitiesNonZero(items: seq<RequirementItem>, index: nat, edit: Edit)
    requires NonZeroQuantities(items)
    ensures NonZeroQuantities(AddItem(items))
    ensures index < |items| ==> NonZeroQuantities(items[index := EditedRow(items[index], edit)])
    ensures NonZeroQuantities(RemoveItem(items, index))
  {
    var r := RemoveItem(items, index);
    if index < |items| {
      forall i | 0 <= i < |r| ensures r[i] == if i < index then items[i] else items[i + 1] {
      }
    }
  }

  /** An edit changes its own field and no other. */
  lemma EditChangesOneField(row: RequirementItem, edit: Edit)
    ensures var r := EditedRow(row, edit);
      r.notes == row.notes
      && (!edit.SetProductName? ==> r.productName == row.productName)
      && (!edit.SetQuantity? ==> r.quantity == row.quantity)
      && (!edit.SetUnit? ==> r.unit == row.unit)
      && (!edit.SetEstimatedPrice? ==> r.estimatedPrice == row.estimatedPrice)
  {
  }

  /** `updateItem(index, field, value)`: copies the rows and replaces the one at `index` by
      its edited copy. */
  method UpdateItem(items: seq<RequirementItem>, index: nat, edit: Edit)
    returns (newItems: seq<RequirementItem>)
    requires index < |items|
    ensures |newItems| == |items|
    ensures forall i :: 0 <= i < |items| && i != index ==> newItems[i] == items[i]
    ensures newItems[index] == EditedRow(items[index], edit)
    ensures edit.SetQuantity? ==> newItems[index].quantity != 0
  {
    var rows := new RequirementItem[|items|](i requires 0 <= i < |items| => items[i]);
    rows[index] := EditedRow(rows[index], edit);
    newItems := rows[..];
  }

  /** `removeItem(index)`: drops the row at `index`; the others keep their order. */
  function RemoveItem(items: seq<RequirementItem>, index: nat): (r: seq<RequirementItem>)
    ensures index < |items| ==> r == items[..index] + items[index + 1..]
    ensures index >= |items| ==> r == items
  {
    Seqs.RemoveAt(items, index)
  }

  // ---------------------------------------------------------------------------
  // Submitting
  // ---------------------------------------------------------------------------

  /** A row counts when its product name is not blank once trimmed. */
  predicate Named(row: RequirementItem)
  {
    Text.Trim(row.productName) != ""
  }

  /** `requirementItems.filter(item => item.productName.trim() !== '')`. */
  function SubmittedItems(items: seq<RequirementItem>): (r: seq<RequirementItem>)
    ensures |r| <= |items|
    ensures forall i :: 0 <= i < |r| ==> r[i] in items && Named(r[i])
    ensures forall i :: 0 <= i < |items| && Named(items[i]) ==> items[i] in r
  {
    Seqs.Filter(items, Named)
  }

  /** Blank rows are dropped where they stand: adding one changes nothing that is submitted,
      and the named rows of a concatenation come out in order. */
  lemma SubmittedItemsInOrder(a: seq<RequirementItem>, b: seq<RequirementItem>)
    ensures SubmittedItems(a + b) == SubmittedItems(a) + SubmittedItems(b)
    ensures SubmittedItems(AddItem(a)) == SubmittedItems(a)
  {
    Seqs.FilterConcat(a, b, Named);
    Seqs.FilterConcat(a, [BlankRow], Named);
    assert !Named(BlankRow) by {
      Text.TrimEmptyIff("");
    }
    assert Seqs.Filter([BlankRow], Named) == [];
  }

  /** The submit button is enabled when a customer id is chosen and some row is named. */
  predicate SubmitEnabled(form: Form)
  {
    form.selectedCustomer != "" && |SubmittedItems(form.items)| > 0
  }

  /** The requirement the handler records: pending, for `customer`, with the named rows, the
      form's notes and source. The store stamps its id. */
  function NewRequirement(customer: Customer, form: Form, requestDate: string): (r: DailyRequirement)
    ensures r.customerId == customer.id && r.customerName == customer.name
    ensures r.status == RequirementStatus.Pending && r.items == SubmittedItems(form.items)
    ensures r.notes == Some(form.notes) && r.source == form.source && r.totalAmount.None?
  {
    DailyRequirement("", customer.id, customer.name, SubmittedItems(form.items), requestDate,
      RequirementStatus.Pending, None, Some(form.notes), form.source)
  }

  /** `handleSubmit()`: without a known customer or without rows nothing happens; otherwise one
      pending requirement is recorded and the form goes back to a single blank row, empty
      notes and no customer (the source is kept). `requestDate` is the date of the clock
      reading. */
  method HandleSubmit(store: AppStore.Store, form: Form, requestDate: string, at: AppStore.Stamp)
    returns (next: Form)
    modifies store
    ensures var found := Seqs.Find(old(store.customers), (c: Customer) => c.id == form.selectedCustomer);
      if found.None? || form.items == [] then
        store.State() == old(store.State()) && next == form
      else
        next == Form(false, "", [BlankRow], "", form.source)
        && store.State() == old(store.State()).(dailyRequirements := old(store.dailyRequirements)
             + [NewRequirement(found.value, form, requestDate).(id := "REQ" + at.millis)])
  {
    var customer := Seqs.Find(store.customers, (c: Customer) => c.id == form.selectedCustomer);
    if customer.None? || |form.items| == 0 {
      return form;
    }
    store.AddDailyRequirement(NewRequirement(customer.value, form, requestDate), at);
    next := form.(showCreateModal := false, selectedCustomer := "", items := [BlankRow], notes := "");
  }

  /** The handler's own guard looks at the unfiltered rows, so on its own it records a
      requirement with no items: a known customer and one blank row are enough. Only the
      button's condition rules that out. */
  lemma HandlerAcceptsOnlyBlankRows(customer: Customer, source: RequirementSource)
    ensures var form := Form(true, customer.id, [BlankRow], "", source);
      form.items != [] && NewRequirement(customer, form, "").items == []
      && !SubmitEnabled(form)
  {
    SubmittedItemsInOrder([], []);
    assert AddItem([]) == [BlankRow];
  }

  /** Whenever the button is enabled and the customer is known, the recorded requirement has
      at least one item. */
  lemma EnabledSubmitHasItems(customer: Customer, form: Form, requestDate: string)
    requires SubmitEnabled(form)
    ensures |NewRequirement(customer, form, requestDate).items| >= 1
  {
  }

  // ---------------------------------------------------------------------------
  // Status buttons
  // ---------------------------------------------------------------------------

  /** The one button a card shows for each status: Pending offers Quoted, Quoted offers
      Confirmed, Confirmed offers Delivered; Delivered and Paid offer none. */
  function NextStatus(s: RequirementStatus): (r: Option<RequirementStatus>)
    ensures r.Some? ==> Rank(r.value) == Rank(s) + 1
    ensures r.Some? ==> r.value != RequirementStatus.Paid
    ensures r.None? <==> s == RequirementStatus.Delivered || s == RequirementStatus.Paid
  {
    match s
    case Pending => Some(Quoted)
    case Quoted => Some(Confirmed)
    case Confirmed => Some(RequirementStatus.Delivered)
    case Delivered => None
    case Paid => None
  }

  /** Position along the life of a requirement. */
  function Rank(s: RequirementStatus): nat
  {
    match s
    case Pending => 0
    case Quoted => 1
    case Confirmed => 2
    case Delivered => 3
    case Paid => 4
  }

  /** However many buttons are pressed, a status never moves back and never reaches Paid from
      an earlier status. */
  lemma {:induction false} ButtonsOnlyAdvance(s: RequirementStatus, presses: nat)
    ensures Rank(Advanced(s, presses)) >= Rank(s)
    ensures s != RequirementStatus.Paid ==> Advanced(s, presses) != RequirementStatus.Paid
    decreases presses
  {
    if presses > 0 && NextStatus(s).Some? {
      ButtonsOnlyAdvance(NextStatus(s).value, presses - 1);
    }
  }

  /** The status after pressing the offered button `presses` times. */
  function Advanced(s: RequirementStatus, presses: nat): RequirementStatus
    decreases presses
  {
    if presses == 0 then s
    else match NextStatus(s)
      case Some(n) => Advanced(n, presses - 1)
      case None => s
  }

  /** Pressing the button a card shows: `updateStatus(id, next)` on that requirement's id. A card
      without a button (Delivered, Paid) offers nothing to press. */
  method PressStatusButton(store: AppStore.Store, req: DailyRequirement)
    modifies store
    ensures NextStatus(req.status).None? ==> store.State() == old(store.State())
    ensures NextStatus(req.status).Some? ==>
      store.State() == old(store.State()).(dailyRequirements := store.dailyRequirements)
      && |store.dailyRequirements| == |old(store.dailyRequirements)|
      && forall i :: 0 <= i < |old(store.dailyRequirements)| ==>
           store.dailyRequirements[i]
             == if old(store.dailyRequirements)[i].id == req.id
                then old(store.dailyRequirements)[i].(status := NextStatus(req.status).value)
                else old(store.dailyRequirements)[i]
  {
    match NextStatus(req.status) {
      case Some(n) =>
        store.UpdateDailyRequirement(req.id, RequirementStatusPatch(n));
      case None =>
    }
  }

  // ---------------------------------------------------------------------------
  // Search
  // ---------------------------------------------------------------------------

  /** A requirement is shown when its customer's name or some row's product name contains the
      term, ignoring case. */
  predicate Matches(term: string, req: DailyRequirement)
  {
    Text.IncludesIgnoringCase(req.customerName, term)
    || exists i :: 0 <= i < |req.items| && Text.IncludesIgnoringCase(req.items[i].productName, term)
  }

  /** `filteredRequirements`. */
  function FilteredRequirements(reqs: seq<DailyRequirement>, term: string): (r: seq<DailyRequirement>)
    ensures forall i :: 0 <= i < |r| ==> r[i] in reqs && Matches(term, r[i])
    ensures forall i :: 0 <= i < |reqs| && Matches(term, reqs[i]) ==> reqs[i] in r
  {
    Seqs.Filter(reqs, (req: DailyRequirement) => Matches(term, req))
  }

  /** An empty search shows every requirement, in order. */
  lemma EmptySearchShowsAll(reqs: seq<DailyRequirement>)
    ensures FilteredRequirements(reqs, "") == reqs
  {
    forall i | 0 <= i < |reqs| ensures Matches("", reqs[i]) {
      Text.EmptyTermMatches(reqs[i].customerName);
    }
    Seqs.FilterKeepsAll(reqs, (req: DailyRequirement) => Matches("", req));
  }
}
