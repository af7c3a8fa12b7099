/** The customers view: one modal used both to add a customer and to edit one, the search
    box, the QR code payload and the confirmed delete. */
module Customers {
  import opened Wrappers
  import opened Types
  import Seqs
  import Text
  import AppStore

  /** The modal's fields. The optional ones are present once typed into (or on the blank
      form), and absent when an edit loads a customer that lacks them. */
  datatype Form = Form(
    name: string, phone: string, email: string, address: string, totalPurchases: int,
    lastPurchase: string, status: CustomerStatus, whatsappNumber: Option<string>,
    businessType: Option<string>, gstNumber: Option<string>)

  /** The form the Add button and a submit leave behind. */
  const BlankForm: Form := Form("", "", "", "", 0, "Never", CustomerStatus.Active, Some(""), Some(""), Some(""))

  /** The view's state: whether the modal is open, the id being edited (if any), the form. */
  datatype View = View(showAddModal: bool, editing: Option<string>, form: Form)

  /** The form fields of a stored customer. */
  function FormOf(c: Customer): Form
  {
    Form(c.name, c.phone, c.email, c.address, c.totalPurchases, c.lastPurchase, c.status,
      c.whatsappNumber, c.businessType, c.gstNumber)
  }

  /** The partial record an edit sends: every form field, nothing about id, creation date or
      QR code. */
  function PatchOf(form: Form): CustomerPatch
  {
    CustomerPatch(Some(form.name), Some(form.phone), Some(form.email), Some(form.address),
      Some(form.totalPurchases), Some(form.lastPurchase), Some(form.status), None, None,
      form.whatsappNumber, form.gstNumber, form.businessType)
  }

  /** The customer the add path sends; the store stamps id, creation date and QR code. */
  function NewCustomer(form: Form): Customer
  {
    Customer("", form.name, form.phone, form.email, form.address, form.totalPurchases,
      form.lastPurchase, form.status, "", None, form.whatsappNumber, form.gstNumber,
      form.businessType)
  }

  /** Every optional field is present. */
  predicate Complete(form: Form)
  {
    form.whatsappNumber.Some? && form.businessType.Some? && form.gstNumber.Some?
  }

  /** What is saved reads back as the form: an added customer, and an edited one whenever the
      form's optional fields are present. An edit keeps the id, creation date and QR code, and
      saving a loaded form without changes leaves the customer as it was. */
  lemma SavedCustomerReadsBack(c: Customer, form: Form)
    ensures FormOf(NewCustomer(form)) == form
    ensures var e := PatchOf(form).ApplyTo(c);
      e.id == c.id && e.createdAt == c.createdAt && e.qrCode == c.qrCode
      && (Complete(form) ==> FormOf(e) == form)
    ensures PatchOf(FormOf(c)).ApplyTo(c) == c
  {
  }

  // ---------------------------------------------------------------------------
  // Opening the modal and submitting it
  // ---------------------------------------------------------------------------

  /** The Add button: no customer is being edited and the form is blank. */
  function OpenAdd(): (v: View)
    ensures v.showAddModal && v.editing.None? && v.form == BlankForm && Complete(v.form)
  {
    View(true, None, BlankForm)
  }

  /** `handleEdit(customer)`: the form is loaded with the customer and its id is remembered. */
  function OpenEdit(c: Customer): (v: View)
    ensures v.showAddModal && v.editing == Some(c.id) && v.form == FormOf(c)
  {
    View(true, Some(c.id), FormOf(c))
  }

  /** An id JavaScript treats as true in `if (editingCustomer)`: present and not empty. */
  predicate Editing(v: View)
  {
    v.editing.Some? && v.editing.value != ""
  }

  /** `handleSubmit()`: when editing, the customers with that id take the form's fields;
      otherwise the form is added as a new customer with its notification. Either way the
      modal closes, nothing is being edited and the form is blank again. */
  method HandleSubmit(store: AppStore.Store, v: View, at: AppStore.Stamp, qrStamp: string,
                      noticeAt: AppStore.Stamp)
    returns (next: View)
    modifies store
    ensures next == View(false, None, BlankForm)
    ensures Editing(v) ==>
      store.State() == old(store.State()).(customers := store.customers)
      && |store.customers| == |old(store.customers)|
      && forall i :: 0 <= i < |old(store.customers)| ==>
           store.customers[i]
             == if old(store.customers)[i].id == v.editing.value
                then PatchOf(v.form).ApplyTo(old(store.customers)[i])
                else old(store.customers)[i]
    ensures !Editing(v) ==>
      store.State() == old(store.State()).(
        customers := old(store.customers) + [NewCustomer(v.form).(id := at.millis,
          createdAt := at.date, qrCode := Some("customer_" + qrStamp))],
        notifications := AppStore.PushNotification(old(store.notifications),
          AppStore.AddedNotice(AppStore.CustomerAdded, old(store.language), v.form.name)
            .(id := noticeAt.millis, createdAt := noticeAt.iso)))
  {
    if Editing(v) {
      store.UpdateCustomer(v.editing.value, PatchOf(v.form));
    } else {
      store.AddCustomer(NewCustomer(v.form), at, qrStamp, noticeAt);
    }
    next := View(false, None, BlankForm);
  }

  /** After the Add button, a submit always takes the add path. */
  lemma AddButtonAdds()
    ensures !Editing(OpenAdd())
  {
  }

  /** `handleDelete(id)`: the customer goes only when the confirmation is accepted; every
      other customer stays, in order. */
  method HandleDelete(store: AppStore.Store, id: string, confirmed: bool)
    modifies store
    ensures !confirmed ==> store.State() == old(store.State())
    ensures confirmed ==>
      store.State() == old(store.State()).(customers := store.customers)
      && (forall c :: c in store.customers <==> c in old(store.customers) && c.id != id)
      && store.customers == Seqs.Filter(old(store.customers), (c: Customer) => c.id != id)
  {
    if confirmed {
      store.DeleteCustomer(id);
      forall c {
        Seqs.InFilter(old(store.customers), (x: Customer) => x.id != id, c);
      }
    }
  }

  // ---------------------------------------------------------------------------
  // filteredCustomers
  // ---------------------------------------------------------------------------

  /** A customer is shown when the name, email or business type contains the term ignoring
      case, or the phone contains it as typed. */
  predicate Matches(term: string, c: Customer)
  {
    Text.IncludesIgnoringCase(c.name, term)
    || Text.Includes(c.phone, term)
    || Text.IncludesIgnoringCase(c.email, term)
    || (c.businessType.Some? && Text.IncludesIgnoringCase(c.businessType.value, term))
  }

  /** `filteredCustomers`. */
  function FilteredCustomers(customers: seq<Customer>, term: string): (r: seq<Customer>)
    ensures forall i :: 0 <= i < |r| ==> r[i] in customers && Matches(term, r[i])
    ensures forall i :: 0 <= i < |customers| && Matches(term, customers[i]) ==> customers[i] in r
  {
    Seqs.Filter(customers, (c: Customer) => Matches(term, c))
  }

  /** An empty search shows every customer, in order. */
  lemma EmptySearchShowsAll(customers: seq<Customer>)
    ensures FilteredCustomers(customers, "") == customers
  {
    forall i | 0 <= i < |customers| ensures Matches("", customers[i]) {
      Text.EmptyTermMatches(customers[i].name);
    }
    Seqs.FilterKeepsAll(customers, (c: Customer) => Matches("", c));
  }

  // ---------------------------------------------------------------------------
  // generateQRData
  // ---------------------------------------------------------------------------

  /** The object the QR code encodes, as its keys and values in order. `JSON.stringify` drops
      a key whose value is undefined, so a customer without a business type has no
      `businessType` key. */
  function QrPayload(c: Customer): seq<(string, string)>
  {
    [("name", c.name), ("phone", c.phone), ("email", c.email)]
    + (if c.businessType.Some? then [("businessType", c.businessType.value)] else [])
    + [("id", c.id)]
  }

  /** The value stored under `key`, if any. */
  function Lookup(payload: seq<(string, string)>, key: string): (r: Option<string>)
    ensures r.Some? ==> (key, r.value) in payload
    ensures r.None? ==> forall i :: 0 <= i < |payload| ==> payload[i].0 != key
  {
    if payload == [] then None
    else if payload[0].0 == key then Some(payload[0].1)
    else Lookup(payload[1..], key)
  }

  /** Scanning the code gives back the customer's name, phone, email, business type and id,
      and nothing else: the address, GST number and purchase history stay out of it. */
  lemma QrPayloadReadsBack(c: Customer)
    ensures Lookup(QrPayload(c), "name") == Some(c.name)
    ensures Lookup(QrPayload(c), "phone") == Some(c.phone)
    ensures Lookup(QrPayload(c), "email") == Some(c.email)
    ensures Lookup(QrPayload(c), "businessType") == c.businessType
    ensures Lookup(QrPayload(c), "id") == Some(c.id)
    ensures forall i :: 0 <= i < |QrPayload(c)| ==>
      QrPayload(c)[i].0 in {"name", "phone", "email", "businessType", "id"}
  {
    var p := QrPayload(c);
    assert p[0].0 == "name" && p[1].0 == "phone" && p[2].0 == "email";
    assert "phone" != "name" && "email" != "name" && "email" != "phone";
    assert "businessType" != "name" && "businessType" != "phone" && "businessType" != "email";
    assert "id" != "name" && "id" != "phone" && "id" != "email" && "id" != "businessType";
    var tail := p[1..][1..][1..];
    assert Lookup(p, "businessType") == Lookup(tail, "businessType");
    assert Lookup(p, "id") == Lookup(tail, "id");
    if c.businessType.Some? {
      assert tail == [("businessType", c.businessType.value), ("id", c.id)];
      assert Lookup(tail, "id") == Lookup(tail[1..], "id");
    } else {
      assert tail == [("id", c.id)];
      assert Lookup(tail, "businessType") == Lookup(tail[1..], "businessType");
    }
  }
}
