/** The payments view: recording a payment against an invoice, the gateway a method is sent
    through, the list of invoices still awaiting payment, the two money totals at the top of
    the page and the payment search. */
module Payments {
  import opened Wrappers
  import opened Types
  import Seqs
  import Text
  import AppStore

  // ---------------------------------------------------------------------------
  // Methods and gateways
  // ---------------------------------------------------------------------------

  /** The method buttons the payment modal shows, in order. Cash is not among them. */
  const OfferedMethods: seq<PaymentMethod> :=
    [PaymentMethod.UPI, PaymentMethod.Card, PaymentMethod.NetBanking, PaymentMethod.ONDC]

  /** The gateway recorded with a payment: PhonePe for UPI, Razorpay for cards, and the
      method's own name for anything else. */
  function Gateway(m: PaymentMethod): (g: string)
    ensures m == PaymentMethod.UPI ==> g == "PhonePe"
    ensures m == PaymentMethod.Card ==> g == "Razorpay"
    ensures m != PaymentMethod.UPI && m != PaymentMethod.Card ==> g == PaymentMethodName(m)
  {
    if m == PaymentMethod.UPI then "PhonePe"
    else if m == PaymentMethod.Card then "Razorpay"
    else PaymentMethodName(m)
  }

  /** The recorded gateway tells which method was used: no two methods share one. */
  lemma GatewayIdentifiesMethod(m1: PaymentMethod, m2: PaymentMethod)
    ensures Gateway(m1) == Gateway(m2) ==> m1 == m2
  {
    if Gateway(m1) == Gateway(m2) {
      assert Gateway(m1)[0] == Gateway(m2)[0];
      assert |Gateway(m1)| == |Gateway(m2)|;
    }
  }

  /** The modal can never record a cash payment. */
  lemma CashNeverOffered()
    ensures PaymentMethod.Cash !in OfferedMethods
    ensures forall m :: m in OfferedMethods ==> Gateway(m) != "Cash"
  {
  }

  // ---------------------------------------------------------------------------
  // pendingInvoices and the totals
  // ---------------------------------------------------------------------------

  /** An invoice awaits payment when its payment status is Pending or missing. */
  predicate AwaitingPayment(inv: Invoice)
  {
    inv.paymentStatus == Some(InvoicePaymentStatus.Pending) || inv.paymentStatus.None?
  }

  /** `pendingInvoices`. */
  function PendingInvoices(invoices: seq<Invoice>): (r: seq<Invoice>)
    ensures forall i :: 0 <= i < |r| ==> r[i] in invoices && AwaitingPayment(r[i])
    ensures forall i :: 0 <= i < |invoices| && AwaitingPayment(invoices[i]) ==> invoices[i] in r
  {
    Seqs.Filter(invoices, AwaitingPayment)
  }

  /** "Total Received": the amounts of the successful payments, added up. */
  function TotalReceived(payments: seq<Payment>): int
  {
    Seqs.SumOf(Seqs.Filter(payments, (p: Payment) => p.status == PaymentStatus.Success),
      (p: Payment) => p.amount)
  }

  /** "Pending Amount": the totals of the invoices awaiting payment, added up. */
  function PendingAmount(invoices: seq<Invoice>): int
  {
    Seqs.SumOf(PendingInvoices(invoices), (inv: Invoice) => inv.total)
  }

  /** Recording a payment raises "Total Received" by its amount when it succeeded, and leaves
      it alone otherwise. */
  lemma TotalReceivedAfterRecording(payments: seq<Payment>, p: Payment)
    ensures p.status == PaymentStatus.Success ==>
      TotalReceived(payments + [p]) == TotalReceived(payments) + p.amount
    ensures p.status != PaymentStatus.Success ==>
      TotalReceived(payments + [p]) == TotalReceived(payments)
  {
    var ok := (q: Payment) => q.status == PaymentStatus.Success;
    var w := (q: Payment) => q.amount;
    Seqs.FilterConcat(payments, [p], ok);
    Seqs.SumOfConcat(Seqs.Filter(payments, ok), Seqs.Filter([p], ok), w);
    assert Seqs.Filter([p], ok) == (if ok(p) then [p] else []);
  }

  // ---------------------------------------------------------------------------
  // handlePayment
  // ---------------------------------------------------------------------------

  /** The payment modal: open or not, the chosen invoice id and the chosen method. */
  datatype Form = Form(showPaymentModal: bool, selectedInvoice: string, payMethod: PaymentMethod)

  /** The payment the handler records for `invoice`: its id, its customer, its whole total,
      status Success, the method's gateway and a transaction id from the clock reading
      `txnMillis`. The store stamps the payment's own id and date. */
  function NewPayment(invoice: Invoice, m: PaymentMethod, txnMillis: string): (p: Payment)
    ensures p.invoiceId == invoice.id && p.customerId == invoice.customerId
    ensures p.amount == invoice.total && p.payMethod == m && p.status == PaymentStatus.Success
    ensures p.transactionId == Some("TXN" + txnMillis) && p.gateway == Some(Gateway(m))
  {
    Payment("", invoice.id, invoice.customerId, invoice.total, m, PaymentStatus.Success,
      Some("TXN" + txnMillis), "", Some(Gateway(m)))
  }

  /** `handlePayment(invoiceId, method)`: an unknown invoice id does nothing; otherwise one
      successful payment for the invoice's total is recorded and the modal closes. The
      invoice itself is not touched, so it still awaits payment and "Pending Amount" does
      not move, while "Total Received" grows by the invoice's total. */
  method HandlePayment(store: AppStore.Store, form: Form, invoiceId: string, m: PaymentMethod,
                       txnMillis: string, at: AppStore.Stamp)
    returns (next: Form)
    modifies store
    ensures var found := Seqs.Find(old(store.invoices), (inv: Invoice) => inv.id == invoiceId);
      if found.None? then
        store.State() == old(store.State()) && next == form
      else
        next == form.(showPaymentModal := false, selectedInvoice := "")
        && store.State() == old(store.State()).(payments := old(store.payments)
             + [NewPayment(found.value, m, txnMillis).(id := "PAY" + at.millis, createdAt := at.date)])
        && PendingAmount(store.invoices) == PendingAmount(old(store.invoices))
        && TotalReceived(store.payments) == TotalReceived(old(store.payments)) + found.value.total
  {
    var invoice := Seqs.Find(store.invoices, (inv: Invoice) => inv.id == invoiceId);
    if invoice.None? {
      return form;
    }
    var p := NewPayment(invoice.value, m, txnMillis);
    TotalReceivedAfterRecording(store.payments, p.(id := "PAY" + at.millis, createdAt := at.date));
    store.AddPayment(p, at);
    next := form.(showPaymentModal := false, selectedInvoice := "");
  }

  // ---------------------------------------------------------------------------
  // filteredPayments
  // ---------------------------------------------------------------------------

  /** A payment is shown when its transaction id, its customer's name or its invoice's id
      contains the term, ignoring case; a missing transaction id, customer or invoice never
      matches. */
  predicate Matches(term: string, p: Payment, invoices: seq<Invoice>, customers: seq<Customer>)
  {
    var invoice := Seqs.Find(invoices, (inv: Invoice) => inv.id == p.invoiceId);
    var customer := Seqs.Find(customers, (c: Customer) => c.id == p.customerId);
    (p.transactionId.Some? && Text.IncludesIgnoringCase(p.transactionId.value, term))
    || (customer.Some? && Text.IncludesIgnoringCase(customer.value.name, term))
    || (invoice.Some? && Text.IncludesIgnoringCase(invoice.value.id, term))
  }

  /** `filteredPayments`. */
  function FilteredPayments(payments: seq<Payment>, term: string, invoices: seq<Invoice>,
                            customers: seq<Customer>): (r: seq<Payment>)
    ensures forall i :: 0 <= i < |r| ==> r[i] in payments && Matches(term, r[i], invoices, customers)
    ensures forall i :: 0 <= i < |payments| && Matches(term, payments[i], invoices, customers) ==>
               payments[i] in r
  {
    Seqs.Filter(payments, (p: Payment) => Matches(term, p, invoices, customers))
  }

  /** With an empty search box a payment is listed exactly when it has a transaction id or
      its customer or invoice is known: an orphaned payment without a transaction id is never
      listed. */
  lemma EmptySearchShowsTraceable(p: Payment, invoices: seq<Invoice>, customers: seq<Customer>)
    ensures Matches("", p, invoices, customers) <==>
      p.transactionId.Some?
      || Seqs.Find(customers, (c: Customer) => c.id == p.customerId).Some?
      || Seqs.Find(invoices, (inv: Invoice) => inv.id == p.invoiceId).Some?
  {
    if p.transactionId.Some? {
      Text.EmptyTermMatches(p.transactionId.value);
    }
    var customer := Seqs.Find(customers, (c: Customer) => c.id == p.customerId);
    if customer.Some? {
      Text.EmptyTermMatches(customer.value.name);
    }
    var invoice := Seqs.Find(invoices, (inv: Invoice) => inv.id == p.invoiceId);
    if invoice.Some? {
      Text.EmptyTermMatches(invoice.value.id);
    }
  }
}
