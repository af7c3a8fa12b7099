/** The delivery view: assigning an invoice to a delivery partner, the list of invoices not
    yet shipped, the three status counters and the order search. */
module Delivery {
  import opened Wrappers
  import opened Types
  import Seqs
  import Text
  import AppStore

  /** `${partner.toUpperCase()}${Date.now()}`. */
  function TrackingId(p: DeliveryPartner, millis: string): (t: string)
    ensures |t| == |DeliveryPartnerName(p)| + |millis|
    ensures t[..|DeliveryPartnerName(p)|] == Text.Upper(DeliveryPartnerName(p)) && t[|DeliveryPartnerName(p)|..] == millis
  {
    Text.Upper(DeliveryPartnerName(p)) + millis
  }

  /** Searching for a partner's name, in any case, finds the orders handed to it: the
      upper-cased prefix of the tracking id matches. */
  lemma TrackingIdFoundByPartnerName(p: DeliveryPartner, millis: string)
    ensures Text.IncludesIgnoringCase(TrackingId(p, millis), DeliveryPartnerName(p))
  {
    Text.UpperPrefixMatches(DeliveryPartnerName(p), millis);
  }

  // ---------------------------------------------------------------------------
  // pendingInvoices
  // ---------------------------------------------------------------------------

  /** An invoice is waiting for delivery when its delivery status is Pending or missing. */
  predicate AwaitingDelivery(inv: Invoice)
  {
    inv.deliveryStatus == Some(InvoiceDeliveryStatus.Pending) || inv.deliveryStatus.None?
  }

  /** `pendingInvoices`: the invoices the modal offers. */
  function PendingInvoices(invoices: seq<Invoice>): (r: seq<Invoice>)
    ensures forall i :: 0 <= i < |r| ==> r[i] in invoices && AwaitingDelivery(r[i])
    ensures forall i :: 0 <= i < |invoices| && AwaitingDelivery(invoices[i]) ==> invoices[i] in r
  {
    Seqs.Filter(invoices, AwaitingDelivery)
  }

  // ---------------------------------------------------------------------------
  // The counters
  // ---------------------------------------------------------------------------

  predicate IsDelivered(o: DeliveryOrder) { o.status == DeliveryStatus.Delivered }

  /** The "In Transit" counter also counts orders only assigned to a partner. */
  predicate IsOnTheWay(o: DeliveryOrder)
  {
    o.status == DeliveryStatus.InTransit || o.status == DeliveryStatus.Assigned
  }

  predicate IsFailed(o: DeliveryOrder) { o.status == DeliveryStatus.Failed }

  /** The orders no counter shows: pending and picked ones. */
  predicate IsUncounted(o: DeliveryOrder)
  {
    o.status == DeliveryStatus.Pending || o.status == DeliveryStatus.Picked
  }

  function DeliveredCount(orders: seq<DeliveryOrder>): nat { |Seqs.Filter(orders, IsDelivered)| }
  function OnTheWayCount(orders: seq<DeliveryOrder>): nat { |Seqs.Filter(orders, IsOnTheWay)| }
  function FailedCount(orders: seq<DeliveryOrder>): nat { |Seqs.Filter(orders, IsFailed)| }

  /** Every order is in exactly one of the three counters or is pending or picked: the
      counters and the uncounted orders add up to the whole list. */
  lemma CountersPartitionOrders(orders: seq<DeliveryOrder>)
    ensures DeliveredCount(orders) + OnTheWayCount(orders) + FailedCount(orders)
      + |Seqs.Filter(orders, IsUncounted)| == |orders|
  {
    var two := (o: DeliveryOrder) => IsDelivered(o) || IsOnTheWay(o);
    var three := (o: DeliveryOrder) => two(o) || IsFailed(o);
    var all := (o: DeliveryOrder) => three(o) || IsUncounted(o);
    Seqs.FilterDisjointCount(orders, IsDelivered, IsOnTheWay, two);
    Seqs.FilterDisjointCount(orders, two, IsFailed, three);
    Seqs.FilterDisjointCount(orders, three, IsUncounted, all);
    Seqs.FilterKeepsAll(orders, all);
  }

  /** Adding an order in status Assigned moves the "In Transit" counter up by one and leaves
      the other two alone. */
  lemma AssignedOrderCountsInTransit(orders: seq<DeliveryOrder>, o: DeliveryOrder)
    requires o.status == DeliveryStatus.Assigned
    ensures OnTheWayCount(orders + [o]) == OnTheWayCount(orders) + 1
    ensures DeliveredCount(orders + [o]) == DeliveredCount(orders)
    ensures FailedCount(orders + [o]) == FailedCount(orders)
  {
    Seqs.FilterConcat(orders, [o], IsOnTheWay);
    Seqs.FilterConcat(orders, [o], IsDelivered);
    Seqs.FilterConcat(orders, [o], IsFailed);
    assert Seqs.Filter([o], IsOnTheWay) == [o];
    assert Seqs.Filter([o], IsDelivered) == [];
    assert Seqs.Filter([o], IsFailed) == [];
  }

  // ---------------------------------------------------------------------------
  // handleCreateDelivery
  // ---------------------------------------------------------------------------

  /** The modal: open or not, the chosen invoice id and the chosen partner. */
  datatype Form = Form(showCreateModal: bool, selectedInvoice: string, partner: DeliveryPartner)

  /** The order the handler records for `invoice`: its id, customer and items, the chosen
      partner, status Assigned, the tracking id built from the clock reading `millis`, and
      tomorrow's date. The store stamps the order's own id and date. */
  function NewOrder(invoice: Invoice, p: DeliveryPartner, millis: string, tomorrow: string): (o: DeliveryOrder)
    ensures o.invoiceId == invoice.id && o.customerId == invoice.customerId && o.items == invoice.items
    ensures o.deliveryPartner == p && o.status == DeliveryStatus.Assigned
    ensures o.trackingId == Some(TrackingId(p, millis)) && o.estimatedDelivery == Some(tomorrow)
    ensures o.actualDelivery.None?
  {
    DeliveryOrder("", invoice.id, invoice.customerId, invoice.items, p, DeliveryStatus.Assigned,
      Some(TrackingId(p, millis)), Some(tomorrow), None, "")
  }

  /** `handleCreateDelivery()`: an unknown invoice id does nothing; otherwise one assigned
      order is recorded and the modal closes. The invoice is not touched, so it stays in
      the pending list, and the "In Transit" counter goes up by one. */
  method HandleCreateDelivery(store: AppStore.Store, form: Form, millis: string, tomorrow: string,
                              at: AppStore.Stamp)
    returns (next: Form)
    modifies store
    ensures var found := Seqs.Find(old(store.invoices), (inv: Invoice) => inv.id == form.selectedInvoice);
      if found.None? then
        store.State() == old(store.State()) && next == form
      else
        next == form.(showCreateModal := false, selectedInvoice := "")
        && store.State() == old(store.State()).(deliveryOrders := old(store.deliveryOrders)
             + [NewOrder(found.value, form.partner, millis, tomorrow).(id := "DEL" + at.millis,
                                                                       createdAt := at.date)])
        && PendingInvoices(store.invoices) == PendingInvoices(old(store.invoices))
        && OnTheWayCount(store.deliveryOrders) == OnTheWayCount(old(store.deliveryOrders)) + 1
  {
    var invoice := Seqs.Find(store.invoices, (inv: Invoice) => inv.id == form.selectedInvoice);
    if invoice.None? {
      return form;
    }
    var o := NewOrder(invoice.value, form.partner, millis, tomorrow);
    AssignedOrderCountsInTransit(store.deliveryOrders, o.(id := "DEL" + at.millis, createdAt := at.date));
    store.AddDeliveryOrder(o, at);
    next := form.(showCreateModal := false, selectedInvoice := "");
  }

  // ---------------------------------------------------------------------------
  // filteredOrders
  // ---------------------------------------------------------------------------

  /** An order is shown when its tracking id, its customer's name or its own id contains the
      term, ignoring case. */
  predicate Matches(term: string, o: DeliveryOrder, customers: seq<Customer>)
  {
    var customer := Seqs.Find(customers, (c: Customer) => c.id == o.customerId);
    (o.trackingId.Some? && Text.IncludesIgnoringCase(o.trackingId.value, term))
    || (customer.Some? && Text.IncludesIgnoringCase(customer.value.name, term))
    || Text.IncludesIgnoringCase(o.id, term)
  }

  /** `filteredOrders`. */
  function FilteredOrders(orders: seq<DeliveryOrder>, term: string, customers: seq<Customer>)
    : (r: seq<DeliveryOrder>)
    ensures forall i :: 0 <= i < |r| ==> r[i] in orders && Matches(term, r[i], customers)
    ensures forall i :: 0 <= i < |orders| && Matches(term, orders[i], customers) ==> orders[i] in r
  {
    Seqs.Filter(orders, (o: DeliveryOrder) => Matches(term, o, customers))
  }

  /** An empty search shows every order, in order. */
  lemma EmptySearchShowsAll(orders: seq<DeliveryOrder>, customers: seq<Customer>)
    ensures FilteredOrders(orders, "", customers) == orders
  {
    forall i | 0 <= i < |orders| ensures Matches("", orders[i], customers) {
      Text.EmptyTermMatches(orders[i].id);
    }
    Seqs.FilterKeepsAll(orders, (o: DeliveryOrder) => Matches("", o, customers));
  }

  /** An order the handler created is found by searching for its partner's name. */
  lemma NewOrderFoundByPartner(invoice: Invoice, p: DeliveryPartner, millis: string,
                               tomorrow: string, customers: seq<Customer>)
    ensures Matches(DeliveryPartnerName(p), NewOrder(invoice, p, millis, tomorrow), customers)
  {
    TrackingIdFoundByPartnerName(p, millis);
  }
}
