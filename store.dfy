/** The application store: one long-lived object holding the dashboard's language, navigation
    state and the ordered collections of customers, products, invoices, campaigns,
    notifications, payments, delivery orders, daily requirements and WhatsApp leads.

    Every operation reassigns one or two fields. Adding a record appends it at the end of its
    collection with a fresh id (and date) stamped over whatever the caller supplied; updating
    merges a partial record over every record with the given id; deleting filters those
    records out. Notifications are kept newest first and capped at `MaxNotifications`.

    The clock is not modelled: each reading of `Date.now()` / `new Date()` is a `Stamp`
    parameter, and nothing assumes two stamps differ. */
module AppStore {
  import opened Wrappers
  import opened Types
  import Seqs
  import Text

  /** One clock reading: `Date.now().toString()`, the date part of `toISOString()`, and the
      whole `toISOString()`. */
  datatype Stamp = Stamp(millis: string, date: string, iso: string)

  const MaxNotifications: nat := 50

  /** A snapshot of every field of the store. */
  datatype StoreState = StoreState(
    language: Language, activeTab: string, sidebarOpen: bool,
    customers: seq<Customer>, products: seq<Product>, invoices: seq<Invoice>,
    campaigns: seq<Campaign>, notifications: seq<Notification>, payments: seq<Payment>,
    deliveryOrders: seq<DeliveryOrder>, dailyRequirements: seq<DailyRequirement>,
    whatsappLeads: seq<WhatsAppLead>)

  // ---------------------------------------------------------------------------
  // Notifications
  // ---------------------------------------------------------------------------

  /** `[n, ...l].slice(0, 50)`: the new entry first, then the previous ones, oldest dropped. */
  function PushNotification(l: seq<Notification>, n: Notification): (r: seq<Notification>)
    ensures |r| == Seqs.Min(|l| + 1, MaxNotifications)
    ensures r[0] == n
    ensures forall i :: 1 <= i < |r| ==> r[i] == l[i - 1]
  {
    ([n] + l)[..Seqs.Min(|l| + 1, MaxNotifications)]
  }

  /** Pushes `ns[0]`, then `ns[1]`, and so on. */
  function PushAll(l: seq<Notification>, ns: seq<Notification>): seq<Notification>
    decreases |ns|
  {
    if ns == [] then l else PushAll(PushNotification(l, ns[0]), ns[1..])
  }

  /** After any run of pushes onto a list within the cap, the list holds the pushed entries
      newest first, followed by the older list, cut to the cap: with 51 or more pushes, exactly
      the 50 most recent remain. */
  lemma {:induction false} PushAllKeepsNewest(l: seq<Notification>, ns: seq<Notification>)
    requires |l| <= MaxNotifications
    ensures PushAll(l, ns)
      == (Seqs.Reverse(ns) + l)[..Seqs.Min(|ns| + |l|, MaxNotifications)]
    decreases |ns|
  {
    if ns == [] {
      assert Seqs.Reverse(ns) + l == l;
    } else {
      var rest := ns[1..];
      var p := PushNotification(l, ns[0]);
      PushAllKeepsNewest(p, rest);
      var a := Seqs.Reverse(rest) + p;
      var b := Seqs.Reverse(ns) + l;
      var m := Seqs.Min(|ns| + |l|, MaxNotifications);
      assert Seqs.Reverse(ns) == Seqs.Reverse(rest) + [ns[0]];
      assert Seqs.Min(|rest| + |p|, MaxNotifications) == m;
      forall i | 0 <= i < m
        ensures a[i] == b[i]
      {
        if i >= |rest| {
          var j := i - |rest|;
          if j == 0 {
            assert a[i] == p[0] == ns[0];
          } else {
            assert a[i] == p[j] == l[j - 1];
          }
        }
      }
    }
  }

  /** `n.id === id ? { ...n, read: true } : n` over the whole list. */
  function MarkRead(l: seq<Notification>, id: string): (r: seq<Notification>)
    ensures |r| == |l|
    ensures forall i :: 0 <= i < |l| ==> r[i] == l[i].(read := r[i].read)
    ensures forall i :: 0 <= i < |l| ==> r[i].read == (l[i].read || l[i].id == id)
  {
    Seqs.MapWhere(l, (n: Notification) => n.id == id, (n: Notification) => n.(read := true))
  }

  /** Marking the same id read twice is marking it once. */
  lemma MarkReadIdempotent(l: seq<Notification>, id: string)
    ensures MarkRead(MarkRead(l, id), id) == MarkRead(l, id)
  {
  }

  /** What an `add*` announces. */
  datatype Addition = CustomerAdded | ProductAdded | InvoiceCreated | CampaignCreated

  /** The notification `addCustomer`, `addProduct`, `addInvoice` and `addCampaign` raise, in the
      store's current language; `name` is the customer, product, invoice customer or campaign
      name. Its id and time are stamped by `addNotification`. */
  function AddedNotice(what: Addition, lang: Language, name: string): (n: Notification)
    ensures n.kind == NotificationType.Success && !n.read
    ensures Text.Includes(n.message, name)
  {
    var (title, before, after) :=
      match (what, lang)
      case (CustomerAdded, En) => ("Customer Added", "", " has been added successfully")
      case (CustomerAdded, Hi) => ("ग्राहक जोड़ा गया", "", " सफलतापूर्वक जोड़ा गया")
      case (ProductAdded, En) => ("Product Added", "", " has been added to inventory")
      case (ProductAdded, Hi) => ("उत्पाद जोड़ा गया", "", " इन्वेंटरी में जोड़ा गया")
      case (InvoiceCreated, En) => ("Invoice Created", "Invoice for ", " created")
      case (InvoiceCreated, Hi) => ("चालान बनाया गया", "", " के लिए चालान बनाया गया")
      case (CampaignCreated, En) => ("Campaign Created", "", " campaign has been created")
      case (CampaignCreated, Hi) => ("अभियान बनाया गया", "", " अभियान बनाया गया है");
    Text.IncludesMiddle(before, name, after);
    Notification("", title, before + name + after, NotificationType.Success, false, "")
  }

  // ---------------------------------------------------------------------------
  // Seed data
  // ---------------------------------------------------------------------------

  /** The state the store starts in; `now` is the `toISOString()` of the moment the store is
      created, used by the welcome notification and the sample lead. */
  function Seed(now: string): (st: StoreState)
    ensures st.language == En && st.activeTab == "dashboard" && !st.sidebarOpen
    ensures |st.notifications| <= MaxNotifications
  {
    StoreState(
      En, "dashboard", false,
      [ Customer("1", "Rajesh Kumar Sharma", "+91 98765 43210", "rajesh.sharma@email.com",
          "Shop No. 15, Karol Bagh Market, New Delhi - 110005", 125680, "2 days ago", CustomerStatus.Active,
          "2024-01-15", None, Some("+91 98765 43210"), Some("07AAAAA0000A1Z5"),
          Some("Retail Store")),
        Customer("2", "Priya Patel", "+91 87654 32109", "priya.patel@email.com",
          "B-12, Commercial Complex, Andheri West, Mumbai - 400058", 89450, "1 week ago",
          CustomerStatus.Active, "2024-01-10", None, Some("+91 87654 32109"), Some("27BBBBB1111B2Z6"),
          Some("Beauty Salon")),
        Customer("3", "Mohammed Iqbal", "+91 76543 21098", "mohammed.iqbal@email.com",
          "Shop 8, Charminar Market, Hyderabad - 500002", 67890, "3 days ago", CustomerStatus.Active,
          "2024-01-08", None, Some("+91 76543 21098"), None, Some("Electronics Store")),
        Customer("4", "Sunita Devi", "+91 65432 10987", "sunita.devi@email.com",
          "Kirana Store, Main Road, Patna - 800001", 45230, "5 days ago", CustomerStatus.Active, "2024-01-05",
          None, Some("+91 65432 10987"), None, Some("Grocery Store")),
        Customer("5", "Arjun Reddy", "+91 54321 09876", "arjun.reddy@email.com",
          "Medical Store, Gandhi Nagar, Bangalore - 560009", 156780, "1 day ago", CustomerStatus.Active,
          "2024-01-12", None, Some("+91 54321 09876"), None, Some("Pharmacy")) ],
      [ Product("1", "Tata Tea Premium", 250, 100, "Beverages",
          "Premium quality Assam tea blend", None, "TT001", Some(20),
          Some("Tata Consumer Products")),
        Product("2", "India Gate Basmati Rice", 180, 50, "Grains",
          "Premium aged basmati rice 1kg", None, "IG002", Some(10), Some("KRBL Limited")),
        Product("3", "Amul Butter", 60, 75, "Dairy", "Fresh salted butter 100g", None, "AM003",
          Some(15), Some("Amul")),
        Product("4", "Patanjali Atta", 45, 120, "Flour", "Whole wheat flour 1kg", None, "PT004",
          Some(25), Some("Patanjali Ayurved")),
        Product("5", "Maggi Noodles", 14, 200, "Instant Food", "Masala instant noodles 70g",
          None, "MG005", Some(50), Some("Nestle India")) ],
      [ Invoice("INV001", "1", "Rajesh Kumar Sharma",
          [ InvoiceItem("1", "Tata Tea Premium", 2, 250, 500),
            InvoiceItem("3", "Amul Butter", 3, 60, 180) ],
          680, InvoiceStatus.Paid, "2024-01-20", "2024-02-20", Some("UPI"),
          Some(InvoicePaymentStatus.Paid), Some(InvoiceDeliveryStatus.Delivered)),
        Invoice("INV002", "2", "Priya Patel",
          [ InvoiceItem("2", "India Gate Basmati Rice", 1, 180, 180) ],
          180, Sent, "2024-01-21", "2024-02-21", None, Some(InvoicePaymentStatus.Pending),
          Some(InvoiceDeliveryStatus.Pending)) ],
      [ Campaign("1", "Diwali Special Offers", CampaignType.WhatsApp, CampaignStatus.Active,
          ["1", "2", "3"],
          "Special Diwali discounts! Get 20% off on all products. Valid till 31st Oct.", None,
          "2024-01-15", Some(150), Some(145), Some(89)) ],
      [ Notification("1", "Welcome to VyaparX",
          "Your business management platform is ready to use!", Info, false, now) ],
      [ Payment("PAY001", "INV001", "1", 680, UPI, PaymentStatus.Success, Some("UPI123456789"),
          "2024-01-20", Some("PhonePe")) ],
      [ DeliveryOrder("DEL001", "INV001", "1",
          [ InvoiceItem("1", "Tata Tea Premium", 2, 250, 500) ], Dunzo,
          DeliveryStatus.Delivered, Some("DUN123456"), Some("2024-01-21"), Some("2024-01-21"),
          "2024-01-20") ],
      [ DailyRequirement("REQ001", "1", "Rajesh Kumar Sharma",
          [ RequirementItem("Milk", 2, "liters", Some(60), None),
            RequirementItem("Bread", 4, "packets", Some(120), None) ],
          "2024-01-22", RequirementStatus.Pending, None, Some("Regular daily order"),
          RequirementSource.WhatsApp) ],
      [ WhatsAppLead("LEAD001", "+91 99999 88888", Some("Amit Singh"),
          "Hi, I need 5kg rice and 2kg dal. Can you deliver today?", now, New, None, None) ])
  }

  // ---------------------------------------------------------------------------
  // The store
  // ---------------------------------------------------------------------------

  class Store {
    var language: Language
    var activeTab: string
    var sidebarOpen: bool
    var customers: seq<Customer>
    var products: seq<Product>
    var invoices: seq<Invoice>
    var campaigns: seq<Campaign>
    var notifications: seq<Notification>
    var payments: seq<Payment>
    var deliveryOrders: seq<DeliveryOrder>
    var dailyRequirements: seq<DailyRequirement>
    var whatsappLeads: seq<WhatsAppLead>

    function State(): StoreState
      reads this
    {
      StoreState(language, activeTab, sidebarOpen, customers, products, invoices, campaigns,
        notifications, payments, deliveryOrders, dailyRequirements, whatsappLeads)
    }

    /** The notification list never exceeds its cap. */
    ghost predicate Valid()
      reads this
    {
      |notifications| <= MaxNotifications
    }

    constructor (now: string)
      ensures State() == Seed(now)
      ensures Valid()
    {
      var st := Seed(now);
      language := st.language;
      activeTab := st.activeTab;
      sidebarOpen := st.sidebarOpen;
      customers := st.customers;
      products := st.products;
      invoices := st.invoices;
      campaigns := st.campaigns;
      notifications := st.notifications;
      payments := st.payments;
      deliveryOrders := st.deliveryOrders;
      dailyRequirements := st.dailyRequirements;
      whatsappLeads := st.whatsappLeads;
    }

    // Language and navigation: each setter replaces exactly one field, unvalidated.

    method SetLanguage(lang: Language)
      modifies this
      ensures old(Valid()) ==> Valid()
      ensures State() == old(State()).(language := lang)
    {
      language := lang;
    }

    method SetActiveTab(tab: string)
      modifies this
      ensures old(Valid()) ==> Valid()
      ensures State() == old(State()).(activeTab := tab)
    {
      activeTab := tab;
    }

    method SetSidebarOpen(open: bool)
      modifies this
      ensures old(Valid()) ==> Valid()
      ensures State() == old(State()).(sidebarOpen := open)
    {
      sidebarOpen := open;
    }

    // Notifications

    /** Stamps `n` with a fresh id and time and puts it first, keeping at most 50. */
    method AddNotification(n: Notification, at: Stamp)
      modifies this
      ensures State() == old(State()).(notifications :=
        PushNotification(old(notifications), n.(id := at.millis, createdAt := at.iso)))
      ensures Valid()
    {
      notifications := PushNotification(notifications, n.(id := at.millis, createdAt := at.iso));
    }

    method MarkNotificationRead(id: string)
      modifies this
      ensures old(Valid()) ==> Valid()
      ensures State() == old(State()).(notifications := MarkRead(old(notifications), id))
    {
      notifications := MarkRead(notifications, id);
    }

    method ClearNotifications()
      modifies this
      ensures Valid()
      ensures State() == old(State()).(notifications := [])
    {
      notifications := [];
    }

    // Customers

    /** Appends `c` with its id, creation date and QR code stamped over, then announces it. */
    method AddCustomer(c: Customer, at: Stamp, qrStamp: string, noticeAt: Stamp)
      modifies this
      ensures Valid()
      ensures State() == old(State()).(
        customers := old(customers)
          + [c.(id := at.millis, createdAt := at.date, qrCode := Some("customer_" + qrStamp))],
        notifications := PushNotification(old(notifications),
          AddedNotice(CustomerAdded, old(language), c.name)
            .(id := noticeAt.millis, createdAt := noticeAt.iso)))
    {
      var added := c.(id := at.millis, createdAt := at.date, qrCode := Some("customer_" + qrStamp));
      customers := customers + [added];
      AddNotification(AddedNotice(CustomerAdded, language, c.name), noticeAt);
    }

    method UpdateCustomer(id: string, patch: CustomerPatch)
      modifies this
      ensures old(Valid()) ==> Valid()
      ensures State() == old(State()).(customers :=
        Seqs.MapWhere(old(customers), (c: Customer) => c.id == id, patch.ApplyTo))
    {
      customers := Seqs.MapWhere(customers, (c: Customer) => c.id == id, patch.ApplyTo);
    }

    method DeleteCustomer(id: string)
      modifies this
      ensures old(Valid()) ==> Valid()
      ensures State() == old(State()).(customers :=
        Seqs.Filter(old(customers), (c: Customer) => c.id != id))
    {
      customers := Seqs.Filter(customers, (c: Customer) => c.id != id);
    }

    // Products

    /** Appends `p` with its id and SKU stamped over, then announces it. */
    method AddProduct(p: Product, at: Stamp, skuStamp: string, noticeAt: Stamp)
      modifies this
      ensures Valid()
      ensures State() == old(State()).(
        products := old(products) + [p.(id := at.millis, sku := "SKU" + skuStamp)],
        notifications := PushNotification(old(notifications),
          AddedNotice(ProductAdded, old(language), p.name)
            .(id := noticeAt.millis, createdAt := noticeAt.iso)))
    {
      products := products + [p.(id := at.millis, sku := "SKU" + skuStamp)];
      AddNotification(AddedNotice(ProductAdded, language, p.name), noticeAt);
    }

    method UpdateProduct(id: string, patch: ProductPatch)
      modifies this
      ensures old(Valid()) ==> Valid()
      ensures State() == old(State()).(products :=
        Seqs.MapWhere(old(products), (p: Product) => p.id == id, patch.ApplyTo))
    {
      products := Seqs.MapWhere(products, (p: Product) => p.id == id, patch.ApplyTo);
    }

    method DeleteProduct(id: string)
      modifies this
      ensures old(Valid()) ==> Valid()
      ensures State() == old(State()).(products :=
        Seqs.Filter(old(products), (p: Product) => p.id != id))
    {
      products := Seqs.Filter(products, (p: Product) => p.id != id);
    }

    // Invoices

    /** Appends `inv` with id `INV<millis>` and its creation date, then announces it under the
        invoice's customer name. */
    method AddInvoice(inv: Invoice, at: Stamp, noticeAt: Stamp)
      modifies this
      ensures Valid()
      ensures State() == old(State()).(
        invoices := old(invoices) + [inv.(id := "INV" + at.millis, createdAt := at.date)],
        notifications := PushNotification(old(notifications),
          AddedNotice(InvoiceCreated, old(language), inv.customerName)
            .(id := noticeAt.millis, createdAt := noticeAt.iso)))
    {
      invoices := invoices + [inv.(id := "INV" + at.millis, createdAt := at.date)];
      AddNotification(AddedNotice(InvoiceCreated, language, inv.customerName), noticeAt);
    }

    method UpdateInvoice(id: string, patch: InvoicePatch)
      modifies this
      ensures old(Valid()) ==> Valid()
      ensures State() == old(State()).(invoices :=
        Seqs.MapWhere(old(invoices), (i: Invoice) => i.id == id, patch.ApplyTo))
    {
      invoices := Seqs.MapWhere(invoices, (i: Invoice) => i.id == id, patch.ApplyTo);
    }

    // Campaigns

    method AddCampaign(c: Campaign, at: Stamp, noticeAt: Stamp)
      modifies this
      ensures Valid()
      ensures State() == old(State()).(
        campaigns := old(campaigns) + [c.(id := at.millis, createdAt := at.date)],
        notifications := PushNotification(old(notifications),
          AddedNotice(CampaignCreated, old(language), c.name)
            .(id := noticeAt.millis, createdAt := noticeAt.iso)))
    {
      campaigns := campaigns + [c.(id := at.millis, createdAt := at.date)];
      AddNotification(AddedNotice(CampaignCreated, language, c.name), noticeAt);
    }

    method UpdateCampaign(id: string, patch: CampaignPatch)
      modifies this
      ensures old(Valid()) ==> Valid()
      ensures State() == old(State()).(campaigns :=
        Seqs.MapWhere(old(campaigns), (c: Campaign) => c.id == id, patch.ApplyTo))
    {
      campaigns := Seqs.MapWhere(campaigns, (c: Campaign) => c.id == id, patch.ApplyTo);
    }

    // Payments, delivery orders, daily requirements and leads: appended without a notification.

    method AddPayment(p: Payment, at: Stamp)
      modifies this
      ensures old(Valid()) ==> Valid()
      ensures State() == old(State()).(
        payments := old(payments) + [p.(id := "PAY" + at.millis, createdAt := at.date)])
    {
      payments := payments + [p.(id := "PAY" + at.millis, createdAt := at.date)];
    }

    method UpdatePayment(id: string, patch: PaymentPatch)
      modifies this
      ensures old(Valid()) ==> Valid()
      ensures State() == old(State()).(payments :=
        Seqs.MapWhere(old(payments), (p: Payment) => p.id == id, patch.ApplyTo))
    {
      payments := Seqs.MapWhere(payments, (p: Payment) => p.id == id, patch.ApplyTo);
    }

    method AddDeliveryOrder(o: DeliveryOrder, at: Stamp)
      modifies this
      ensures old(Valid()) ==> Valid()
      ensures State() == old(State()).(
        deliveryOrders := old(deliveryOrders) + [o.(id := "DEL" + at.millis, createdAt := at.date)])
    {
      deliveryOrders := deliveryOrders + [o.(id := "DEL" + at.millis, createdAt := at.date)];
    }

    method UpdateDeliveryOrder(id: string, patch: DeliveryOrderPatch)
      modifies this
      ensures old(Valid()) ==> Valid()
      ensures State() == old(State()).(deliveryOrders :=
        Seqs.MapWhere(old(deliveryOrders), (o: DeliveryOrder) => o.id == id, patch.ApplyTo))
    {
      deliveryOrders := Seqs.MapWhere(deliveryOrders, (o: DeliveryOrder) => o.id == id, patch.ApplyTo);
    }

    /** Only the id is stamped: the request date is the caller's. */
    method AddDailyRequirement(r: DailyRequirement, at: Stamp)
      modifies this
      ensures old(Valid()) ==> Valid()
      ensures State() == old(State()).(
        dailyRequirements := old(dailyRequirements) + [r.(id := "REQ" + at.millis)])
    {
      dailyRequirements := dailyRequirements + [r.(id := "REQ" + at.millis)];
    }

    method UpdateDailyRequirement(id: string, patch: DailyRequirementPatch)
      modifies this
      ensures old(Valid()) ==> Valid()
      ensures State() == old(State()).(dailyRequirements :=
        Seqs.MapWhere(old(dailyRequirements), (r: DailyRequirement) => r.id == id, patch.ApplyTo))
    {
      dailyRequirements :=
        Seqs.MapWhere(dailyRequirements, (r: DailyRequirement) => r.id == id, patch.ApplyTo);
    }

    /** Only the id is stamped: the timestamp is the caller's. */
    method AddWhatsAppLead(l: WhatsAppLead, at: Stamp)
      modifies this
      ensures old(Valid()) ==> Valid()
      ensures State() == old(State()).(
        whatsappLeads := old(whatsappLeads) + [l.(id := "LEAD" + at.millis)])
    {
      whatsappLeads := whatsappLeads + [l.(id := "LEAD" + at.millis)];
    }

    method UpdateWhatsAppLead(id: string, patch: WhatsAppLeadPatch)
      modifies this
      ensures old(Valid()) ==> Valid()
      ensures State() == old(State()).(whatsappLeads :=
        Seqs.MapWhere(old(whatsappLeads), (l: WhatsAppLead) => l.id == id, patch.ApplyTo))
    {
      whatsappLeads := Seqs.MapWhere(whatsappLeads, (l: WhatsAppLead) => l.id == id, patch.ApplyTo);
    }
  }
}
