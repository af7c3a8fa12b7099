/** The products view: one modal to add a product or edit one, the search box, the stock
    colour on each card and the confirmed delete. */
module Products {
  import opened Wrappers
  import opened Types
  import Seqs
  import Text
  import AppStore
  import FormInput

  /** The modal's five fields. There is no SKU and no minimum stock: the store makes the SKU
      and the minimum stock is never set from here. */
  datatype Form = Form(name: string, price: int, stock: int, category: string, description: string)

  const BlankForm: Form := Form("", 0, 0, "", "")

  /** The five inputs of the modal. A typed number arrives as its parse (`None` when it does
      not parse). */
  datatype FormEdit =
    | SetName(name: string)
    | SetPrice(parsed: Option<int>)
    | SetStock(parsed: Option<int>)
    | SetCategory(category: string)
    | SetDescription(description: string)

  /** `setFormData({ ...formData, [field]: value })`, where a typed price is
      `parseFloat(…) || 0` and a typed stock `parseInt(…) || 0`. */
  function EditedForm(form: Form, edit: FormEdit): Form
  {
    match edit
    case SetName(n) => form.(name := n)
    case SetPrice(parsed) => form.(price := FormInput.NumberOrZero(parsed))
    case SetStock(parsed) => form.(stock := FormInput.NumberOrZero(parsed))
    case SetCategory(c) => form.(category := c)
    case SetDescription(d) => form.(description := d)
  }

  /** A typed price or stock that does not parse is stored as 0 and a parsed one is kept; the
      other fields stay. A stock that does not parse shows red once the product is saved. */
  lemma TypedInputFallbacks(form: Form, parsed: Option<int>)
    ensures var f := EditedForm(form, SetPrice(parsed));
      f == form.(price := f.price)
      && (parsed.None? ==> f.price == 0) && (parsed.Some? ==> f.price == parsed.value)
    ensures var f := EditedForm(form, SetStock(parsed));
      f == form.(stock := f.stock)
      && (parsed.None? ==> f.stock == 0) && (parsed.Some? ==> f.stock == parsed.value)
    ensures parsed.None? ==>
      StockLevelOf(NewProduct(EditedForm(form, SetStock(parsed))).stock) == Out
  {
  }

  /** The view's state: whether the modal is open, the id being edited (if any), the form. */
  datatype View = View(showAddModal: bool, editing: Option<string>, form: Form)

  /** The form fields of a stored product. */
  function FormOf(p: Product): Form
  {
    Form(p.name, p.price, p.stock, p.category, p.description)
  }

  /** The partial record an edit sends. */
  function PatchOf(form: Form): ProductPatch
  {
    ProductPatch(Some(form.name), Some(form.price), Some(form.stock), Some(form.category),
      Some(form.description), None, None, None, None)
  }

  /** The product the add path sends; the store stamps its id and SKU. */
  function NewProduct(form: Form): (p: Product)
    ensures p.minStock.None? && p.image.None? && p.supplier.None?
  {
    Product("", form.name, form.price, form.stock, form.category, form.description, None, "",
      None, None)
  }

  /** What is saved reads back as the form, both when added and when edited; an edit keeps the
      id, SKU, minimum stock, image and supplier, and saving a loaded form unchanged leaves the
      product as it was. */
  lemma SavedProductReadsBack(p: Product, form: Form)
    ensures FormOf(NewProduct(form)) == form
    ensures var e := PatchOf(form).ApplyTo(p);
      FormOf(e) == form && e.id == p.id && e.sku == p.sku && e.minStock == p.minStock
      && e.image == p.image && e.supplier == p.supplier
    ensures PatchOf(FormOf(p)).ApplyTo(p) == p
  {
  }

  /** The Add button: no product is being edited and the form is blank. */
  function OpenAdd(): (v: View)
    ensures v.showAddModal && v.editing.None? && v.form == BlankForm
  {
    View(true, None, BlankForm)
  }

  /** `handleEdit(product)`: the form is loaded with the product and its id is remembered. */
  function OpenEdit(p: Product): (v: View)
    ensures v.showAddModal && v.editing == Some(p.id) && v.form == FormOf(p)
  {
    View(true, Some(p.id), FormOf(p))
  }

  /** An id JavaScript treats as true: present and not empty. */
  predicate Editing(v: View)
  {
    v.editing.Some? && v.editing.value != ""
  }

  /** `handleSubmit()`: when editing, the products with that id take the form's fields;
      otherwise the form is added as a new product with its notification. The modal closes,
      nothing is being edited and the form is blank. */
  method HandleSubmit(store: AppStore.Store, v: View, at: AppStore.Stamp, skuStamp: string,
                      noticeAt: AppStore.Stamp)
    returns (next: View)
    modifies store
    ensures next == View(false, None, BlankForm)
    ensures Editing(v) ==>
      store.State() == old(store.State()).(products := store.products)
      && |store.products| == |old(store.products)|
      && forall i :: 0 <= i < |old(store.products)| ==>
           store.products[i]
             == if old(store.products)[i].id == v.editing.value
                then PatchOf(v.form).ApplyTo(old(store.products)[i])
                else old(store.products)[i]
    ensures !Editing(v) ==>
      store.State() == old(store.State()).(
        products := old(store.products) + [NewProduct(v.form).(id := at.millis, sku := "SKU" + skuStamp)],
        notifications := AppStore.PushNotification(old(store.notifications),
          AppStore.AddedNotice(AppStore.ProductAdded, old(store.language), v.form.name)
            .(id := noticeAt.millis, createdAt := noticeAt.iso)))
  {
    if Editing(v) {
      store.UpdateProduct(v.editing.value, PatchOf(v.form));
    } else {
      store.AddProduct(NewProduct(v.form), at, skuStamp, noticeAt);
    }
    next := View(false, None, BlankForm);
  }

  /** After the Add button, a submit always takes the add path. */
  lemma AddButtonAdds()
    ensures !Editing(OpenAdd())
  {
  }

  /** `handleDelete(id)`: the product goes only when the confirmation is accepted; every
      other product stays, in order. */
  method HandleDelete(store: AppStore.Store, id: string, confirmed: bool)
    modifies store
    ensures !confirmed ==> store.State() == old(store.State())
    ensures confirmed ==>
      store.State() == old(store.State()).(products := store.products)
      && (forall p :: p in store.products <==> p in old(store.products) && p.id != id)
      && store.products == Seqs.Filter(old(store.products), (p: Product) => p.id != id)
  {
    if confirmed {
      store.DeleteProduct(id);
      forall p {
        Seqs.InFilter(old(store.products), (x: Product) => x.id != id, p);
      }
    }
  }

  // ---------------------------------------------------------------------------
  // filteredProducts
  // ---------------------------------------------------------------------------

  predicate Matches(term: string, p: Product)
  {
    Text.IncludesIgnoringCase(p.name, term) || Text.IncludesIgnoringCase(p.category, term)
  }

  /** `filteredProducts`: the products whose name or category contains the term, ignoring
      case. */
  function FilteredProducts(products: seq<Product>, term: string): (r: seq<Product>)
    ensures forall i :: 0 <= i < |r| ==> r[i] in products && Matches(term, r[i])
    ensures forall i :: 0 <= i < |products| && Matches(term, products[i]) ==> products[i] in r
  {
    Seqs.Filter(products, (p: Product) => Matches(term, p))
  }

  /** An empty search shows every product, in order. */
  lemma EmptySearchShowsAll(products: seq<Product>)
    ensures FilteredProducts(products, "") == products
  {
    forall i | 0 <= i < |products| ensures Matches("", products[i]) {
      Text.EmptyTermMatches(products[i].name);
    }
    Seqs.FilterKeepsAll(products, (p: Product) => Matches("", p));
  }

  // ---------------------------------------------------------------------------
  // Stock colour
  // ---------------------------------------------------------------------------

  /** The colour a card's stock figure takes. */
  datatype StockLevel = Plenty | Low | Out

  /** Green above 10 units, orange from 1 to 10, red at 0 or below. */
  function StockLevelOf(stock: int): (l: StockLevel)
    ensures l == Plenty <==> stock > 10
    ensures l == Low <==> 0 < stock <= 10
    ensures l == Out <==> stock <= 0
  {
    if stock > 10 then Plenty else if stock > 0 then Low else Out
  }

  function StockClass(l: StockLevel): string
  {
    match l
    case Plenty => "text-green-600"
    case Low => "text-orange-600"
    case Out => "text-red-600"
  }

  function Health(l: StockLevel): nat
  {
    match l
    case Plenty => 2
    case Low => 1
    case Out => 0
  }

  /** More stock never shows a worse colour, and a product added from the blank form shows
      red until its stock is set. */
  lemma StockLevelMonotone(a: int, b: int)
    ensures a <= b ==> Health(StockLevelOf(a)) <= Health(StockLevelOf(b))
    ensures StockLevelOf(NewProduct(BlankForm).stock) == Out
  {
  }
}
