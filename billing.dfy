/** The billing view's invoice editor: a list of line items the user adds, edits and removes,
    the running total, and the submit handler that turns the list into a draft invoice.

    Money is an integer amount, as in the seeded data. Each line's total is kept equal to its
    quantity times its price by every edit the view offers. */
module Billing {
  import opened Wrappers
  import opened Types
  import Seqs
  import Text
  import AppStore
  import FormInput

  /** The create-invoice modal: whether it is open, the chosen customer id and the lines. */
  datatype Form = Form(showCreateModal: bool, selectedCustomer: string, items: seq<InvoiceItem>)

  /** The line `addItem` appends: no product yet, quantity 1, price and total 0. */
  const BlankLine: InvoiceItem := InvoiceItem("", "", 1, 0, 0)

  /** No line holds quantity 0: the blank line has 1 and a typed quantity falls back to 1. */
  predicate NonZeroQuantities(items: seq<InvoiceItem>)
  {
    forall i :: 0 <= i < |items| ==> items[i].quantity != 0
  }

  /** Every line's total is its quantity times its price. */
  predicate TotalsConsistent(items: seq<InvoiceItem>)
  {
    forall i :: 0 <= i < |items| ==> items[i].total == items[i].quantity * items[i].price
  }

  /** `calculateTotal()`: the sum of the line totals. */
  function CalculateTotal(items: seq<InvoiceItem>): int
  {
    Seqs.SumOf(items, (it: InvoiceItem) => it.total)
  }

  /** The amount a line is worth at its quantity and price. */
  function LineAmount(it: InvoiceItem): int
  {
    it.quantity * it.price
  }

  /** When every line is consistent, the invoice total is the sum of quantity times price. */
  lemma {:induction false} TotalIsSumOfAmounts(items: seq<InvoiceItem>)
    requires TotalsConsistent(items)
    ensures CalculateTotal(items) == Seqs.SumOf(items, LineAmount)
  {
    if items != [] {
      TotalIsSumOfAmounts(items[1..]);
    }
  }

  // ---------------------------------------------------------------------------
  // addItem
  // ---------------------------------------------------------------------------

  /** `addItem()`: appends a blank line. */
  function AddItem(items: seq<InvoiceItem>): (r: seq<InvoiceItem>)
    ensures |r| == |items| + 1 && r[..|items|] == items
    ensures r[|items|].productId == "" && r[|items|].productName == ""
    ensures r[|items|].quantity == 1 && r[|items|].price == 0 && r[|items|].total == 0
  {
    items + [BlankLine]
  }

  /** Adding a blank line keeps every line consistent and leaves the total as it was. */
  lemma AddItemKeepsTotals(items: seq<InvoiceItem>)
    ensures TotalsConsistent(items) ==> TotalsConsistent(AddItem(items))
    ensures CalculateTotal(AddItem(items)) == CalculateTotal(items)
    ensures NonZeroQuantities(items) ==> NonZeroQuantities(AddItem(items))
  {
    Seqs.SumOfConcat(items, [BlankLine], (it: InvoiceItem) => it.total);
  }

  // ---------------------------------------------------------------------------
  // updateItem
  // ---------------------------------------------------------------------------

  /** The three edits the line editor makes: choosing a product, typing a quantity, typing a
      price. A typed value arrives as its parse (`None` when it does not parse). */
  datatype Edit =
    | ChooseProduct(productId: string)
    | SetQuantity(parsed: Option<int>)
    | SetPrice(parsed: Option<int>)

  /** The line after one edit: the edited field takes the new value; choosing a product that
      exists also copies its name and price and recomputes the total, while a typed quantity or
      price always recomputes it. A typed quantity goes through `parseInt(…) || 1` and a typed
      price through `parseFloat(…) || 0`. */
  function EditedLine(line: InvoiceItem, edit: Edit, products: seq<Product>): InvoiceItem
  {
    match edit
    case ChooseProduct(pid) =>
      (match Seqs.Find(products, (p: Product) => p.id == pid)
       case Some(p) =>
         line.(productId := pid, productName := p.name, price := p.price,
               total := line.quantity * p.price)
       case None => line.(productId := pid))
    case SetQuantity(parsed) =>
      var q := FormInput.CountOrOne(parsed);
      line.(quantity := q, total := q * line.price)
    case SetPrice(parsed) =>
      var pr := FormInput.NumberOrZero(parsed);
      line.(price := pr, total := line.quantity * pr)
  }

  /** A typed quantity or price always leaves the line consistent, and so does choosing a
      product that exists; choosing an unknown product keeps the line as consistent as it
      was. */
  lemma EditedLineConsistent(line: InvoiceItem, edit: Edit, products: seq<Product>)
    ensures !edit.ChooseProduct? ==>
      EditedLine(line, edit, products).total
        == EditedLine(line, edit, products).quantity * EditedLine(line, edit, products).price
    ensures line.total == line.quantity * line.price ==>
      EditedLine(line, edit, products).total
        == EditedLine(line, edit, products).quantity * EditedLine(line, edit, products).price
  {
  }

  /** A typed quantity that does not parse, or parses to 0, becomes 1 and any other parse is
      kept, so the line never holds quantity 0; a typed price that does not parse becomes 0,
      and either way the total is the new quantity times the new price. */
  lemma TypedInputFallbacks(line: InvoiceItem, parsed: Option<int>, products: seq<Product>)
    ensures var r := EditedLine(line, SetQuantity(parsed), products);
      r.quantity != 0
      && (parsed.Some? && parsed.value != 0 ==> r.quantity == parsed.value)
      && (parsed.None? || parsed.value == 0 ==> r.quantity == 1)
      && r.total == r.quantity * line.price && r.price == line.price
    ensures var r := EditedLine(line, SetPrice(parsed), products);
      (parsed.None? ==> r.price == 0 && r.total == 0)
      && (parsed.Some? ==> r.price == parsed.value)
      && r.total == line.quantity * r.price && r.quantity == line.quantity
  {
  }

  /** Choosing a product copies its name and price when a product has that id, and otherwise
      changes nothing but the product id. */
  lemma ChooseProductCopies(line: InvoiceItem, pid: string, products: seq<Product>)
    ensures var r := EditedLine(line, ChooseProduct(pid), products);
      r.productId == pid && r.quantity == line.quantity
      && (forall p :: p in products && p.id == pid ==>
            exists q :: q in products && q.id == pid && r.productName == q.name
              && r.price == q.price && r.total == line.quantity * q.price)
      && ((forall p :: p in products ==> p.id != pid) ==> r == line.(productId := pid))
  {
    var found := Seqs.Find(products, (p: Product) => p.id == pid);
    if found.None? {
      assert forall j :: 0 <= j < |products| ==> products[j].id != pid;
    }
  }

  /** `updateItem(index, field, value)`: copies the lines, then rewrites the line at `index`
      field by field. */
  method UpdateItem(items: seq<InvoiceItem>, index: nat, edit: Edit, products: seq<Product>)
    returns (newItems: seq<InvoiceItem>)
    requires index < |items|
    ensures |newItems| == |items|
    ensures forall i :: 0 <= i < |items| && i != index ==> newItems[i] == items[i]
    ensures newItems[index] == EditedLine(items[index], edit, products)
    ensures edit.SetQuantity? ==> newItems[index].quantity != 0
    ensures edit.SetPrice? && edit.parsed.None? ==>
      newItems[index].price == 0 && newItems[index].total == 0
  {
    var lines := new InvoiceItem[|items|](i requires 0 <= i < |items| => items[i]);
    match edit {
      case ChooseProduct(pid) =>
        lines[index] := lines[index].(productId := pid);
        var product := Seqs.Find(products, (p: Product) => p.id == pid);
        if product.Some? {
          lines[index] := lines[index].(productName := product.value.name);
          lines[index] := lines[index].(price := product.value.price);
          lines[index] := lines[index].(total := lines[index].quantity * product.value.price);
        }
      case SetQuantity(parsed) =>
        lines[index] := lines[index].(quantity := FormInput.CountOrOne(parsed));
        lines[index] := lines[index].(total := lines[index].quantity * lines[index].price);
      case SetPrice(parsed) =>
        lines[index] := lines[index].(price := FormInput.NumberOrZero(parsed));
        lines[index] := lines[index].(total := lines[index].quantity * lines[index].price);
    }
    newItems := lines[..];
  }

  /** An edit keeps every line consistent, and moves the total by the edited line's change. */
  lemma UpdateKeepsTotals(items: seq<InvoiceItem>, index: nat, newItems: seq<InvoiceItem>,
                          edit: Edit, products: seq<Product>)
    requires index < |items| && |newItems| == |items|
    requires forall i :: 0 <= i < |items| && i != index ==> newItems[i] == items[i]
    requires newItems[index] == EditedLine(items[index], edit, products)
    ensures TotalsConsistent(items) ==> TotalsConsistent(newItems)
    ensures NonZeroQuantities(items) ==> NonZeroQuantities(newItems)
    ensures CalculateTotal(newItems)
      == CalculateTotal(items) - items[index].total + newItems[index].total
  {
    EditedLineConsistent(items[index], edit, products);
    var w := (it: InvoiceItem) => it.total;
    assert newItems == items[..index] + [newItems[index]] + items[index + 1..];
    assert items == items[..index] + [items[index]] + items[index + 1..];
    Seqs.SumOfConcat(items[..index] + [newItems[index]], items[index + 1..], w);
    Seqs.SumOfConcat(items[..index], [newItems[index]], w);
    Seqs.SumOfConcat(items[..index] + [items[index]], items[index + 1..], w);
    Seqs.SumOfConcat(items[..index], [items[index]], w);
  }

  // ---------------------------------------------------------------------------
  // removeItem
  // ---------------------------------------------------------------------------

  /** `removeItem(index)`: drops the line at `index`; the others keep their order. */
  function RemoveItem(items: seq<InvoiceItem>, index: nat): (r: seq<InvoiceItem>)
    ensures index < |items| ==> r == items[..index] + items[index + 1..]
    ensures index >= |items| ==> r == items
  {
    Seqs.RemoveAt(items, index)
  }

  /** Removing a line keeps the rest consistent and takes exactly its total off the sum. */
  lemma RemoveKeepsTotals(items: seq<InvoiceItem>, index: nat)
    requires index < |items|
    ensures TotalsConsistent(items) ==> TotalsConsistent(RemoveItem(items, index))
    ensures CalculateTotal(RemoveItem(items, index)) == CalculateTotal(items) - items[index].total
    ensures NonZeroQuantities(items) ==> NonZeroQuantities(RemoveItem(items, index))
  {
    Seqs.SumOfRemoveAt(items, index, (it: InvoiceItem) => it.total);
    var r := RemoveItem(items, index);
    forall i | 0 <= i < |r| ensures r[i] == if i < index then items[i] else items[i + 1] {
    }
  }

  /** The seeded invoice INV001, two teas at 250 and three butters at 60, totals 680, the total
      it is stored with. */
  lemma SeedInvoiceTotal(now: string)
    ensures CalculateTotal(AppStore.Seed(now).invoices[0].items) == 680
    ensures AppStore.Seed(now).invoices[0].total == 680
  {
    var items := AppStore.Seed(now).invoices[0].items;
    assert items[1..][1..] == [];
  }

  // ---------------------------------------------------------------------------
  // handleCreateInvoice
  // ---------------------------------------------------------------------------

  /** The invoice the handler submits: a draft for `customer` with the form's lines and their
      total. The store stamps its id and creation date. */
  function DraftInvoice(customer: Customer, items: seq<InvoiceItem>, dueDate: string): (inv: Invoice)
    ensures inv.customerId == customer.id && inv.customerName == customer.name
    ensures inv.items == items && inv.total == CalculateTotal(items)
    ensures inv.status == InvoiceStatus.Draft
  {
    Invoice("", customer.id, customer.name, items, CalculateTotal(items), InvoiceStatus.Draft,
      "", dueDate, None, None, None)
  }

  /** `handleCreateInvoice()`: without a known customer or without lines, nothing happens;
      otherwise one draft invoice is added (with its notification) and the form is cleared
      and closed. `dueDate` is thirty days from the clock reading. */
  method HandleCreateInvoice(store: AppStore.Store, form: Form, dueDate: string,
                             at: AppStore.Stamp, noticeAt: AppStore.Stamp)
    returns (next: Form)
    modifies store
    ensures var found := Seqs.Find(old(store.customers), (c: Customer) => c.id == form.selectedCustomer);
      if found.None? || form.items == [] then
        store.State() == old(store.State()) && next == form
      else
        next == Form(false, "", [])
        && store.State() == old(store.State()).(
             invoices := old(store.invoices)
               + [DraftInvoice(found.value, form.items, dueDate).(id := "INV" + at.millis,
                                                                  createdAt := at.date)],
             notifications := AppStore.PushNotification(old(store.notifications),
               AppStore.AddedNotice(AppStore.InvoiceCreated, old(store.language), found.value.name)
                 .(id := noticeAt.millis, createdAt := noticeAt.iso)))
  {
    var customer := Seqs.Find(store.customers, (c: Customer) => c.id == form.selectedCustomer);
    if customer.None? || |form.items| == 0 {
      return form;
    }
    store.AddInvoice(DraftInvoice(customer.value, form.items, dueDate), at, noticeAt);
    next := form.(showCreateModal := false, selectedCustomer := "", items := []);
  }

  // ---------------------------------------------------------------------------
  // filteredInvoices
  // ---------------------------------------------------------------------------

  /** An invoice is listed when its customer name or its id contains the term, ignoring
      case. */
  predicate Matches(term: string, inv: Invoice)
  {
    Text.IncludesIgnoringCase(inv.customerName, term) || Text.IncludesIgnoringCase(inv.id, term)
  }

  /** `filteredInvoices`. */
  function FilteredInvoices(invoices: seq<Invoice>, term: string): (r: seq<Invoice>)
    ensures forall i :: 0 <= i < |r| ==> r[i] in invoices && Matches(term, r[i])
    ensures forall i :: 0 <= i < |invoices| && Matches(term, invoices[i]) ==> invoices[i] in r
  {
    Seqs.Filter(invoices, (inv: Invoice) => Matches(term, inv))
  }

  /** An empty search lists every invoice, in order. */
  lemma EmptySearchShowsAll(invoices: seq<Invoice>)
    ensures FilteredInvoices(invoices, "") == invoices
  {
    forall i | 0 <= i < |invoices| ensures Matches("", invoices[i]) {
      Text.EmptyTermMatches(invoices[i].id);
    }
    Seqs.FilterKeepsAll(invoices, (inv: Invoice) => Matches("", inv));
  }
}
