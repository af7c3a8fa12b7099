/** The dashboard's records (customers, products, invoices, campaigns, notifications, payments,
    delivery orders, daily requirements and WhatsApp leads) and, for each record kept in an
    updatable collection, the partial record `Partial<T>` its `update…` operation merges over it.

    Money and quantities are integers (rupee amounts in paise in the views' arithmetic).
    Identifiers and dates are strings supplied by the caller; optional fields are `Option`s. */
module Types {
  import opened Wrappers

  datatype Language = En | Hi

  datatype CustomerStatus = Active | Inactive
  datatype InvoiceStatus = Draft | Sent | Paid | Overdue
  datatype InvoicePaymentStatus = Pending | Paid | Failed
  datatype InvoiceDeliveryStatus = Pending | Shipped | Delivered
  datatype CampaignType = WhatsApp | Email | SMS
  datatype CampaignStatus = Draft | Active | Completed
  datatype NotificationType = Info | Success | Warning | Error
  datatype PaymentMethod = UPI | Card | NetBanking | Cash | ONDC
  datatype PaymentStatus = Pending | Success | Failed | Refunded
  datatype DeliveryPartner = Zomato | Swiggy | Dunzo | Self | BlueDart | DTDC
  datatype DeliveryStatus = Pending | Assigned | Picked | InTransit | Delivered | Failed
  datatype RequirementStatus = Pending | Quoted | Confirmed | Delivered | Paid
  datatype RequirementSource = WhatsApp | Call | Visit | App
  datatype LeadStatus = New | Responded | Converted | Closed

  /** The text a status or method shows as (its TypeScript string literal). */
  function PaymentMethodName(m: PaymentMethod): string
  {
    match m
    case UPI => "UPI"
    case Card => "Card"
    case NetBanking => "NetBanking"
    case Cash => "Cash"
    case ONDC => "ONDC"
  }

  function DeliveryPartnerName(d: DeliveryPartner): string
  {
    match d
    case Zomato => "Zomato"
    case Swiggy => "Swiggy"
    case Dunzo => "Dunzo"
    case Self => "Self"
    case BlueDart => "BlueDart"
    case DTDC => "DTDC"
  }

  /** `{ ...record, ...partial }` for one field: the partial's value when the key is present. */
  function Pick<T>(o: Option<T>, current: T): T
  {
    GetOr(o, current)
  }

  /** The same for an optional field: a present key sets it, an absent key keeps it. */
  function PickOpt<T>(o: Option<T>, current: Option<T>): Option<T>
  {
    if o.Some? then o else current
  }

  datatype Customer = Customer(
    id: string, name: string, phone: string, email: string, address: string,
    totalPurchases: int, lastPurchase: string, status: CustomerStatus, createdAt: string,
    qrCode: Option<string>, whatsappNumber: Option<string>, gstNumber: Option<string>,
    businessType: Option<string>)

  datatype CustomerPatch = CustomerPatch(
    name: Option<string>, phone: Option<string>, email: Option<string>, address: Option<string>,
    totalPurchases: Option<int>, lastPurchase: Option<string>, status: Option<CustomerStatus>,
    createdAt: Option<string>, qrCode: Option<string>, whatsappNumber: Option<string>,
    gstNumber: Option<string>, businessType: Option<string>)
  {
    /** `{ ...c, ...this }`. */
    function ApplyTo(c: Customer): (r: Customer)
      ensures r.id == c.id
    {
      Customer(c.id, Pick(name, c.name), Pick(phone, c.phone), Pick(email, c.email),
        Pick(address, c.address), Pick(totalPurchases, c.totalPurchases),
        Pick(lastPurchase, c.lastPurchase), Pick(status, c.status), Pick(createdAt, c.createdAt),
        PickOpt(qrCode, c.qrCode), PickOpt(whatsappNumber, c.whatsappNumber),
        PickOpt(gstNumber, c.gstNumber), PickOpt(businessType, c.businessType))
    }
  }

  datatype Product = Product(
    id: string, name: string, price: int, stock: int, category: string, description: string,
    image: Option<string>, sku: string, minStock: Option<int>, supplier: Option<string>)

  datatype ProductPatch = ProductPatch(
    name: Option<string>, price: Option<int>, stock: Option<int>, category: Option<string>,
    description: Option<string>, image: Option<string>, sku: Option<string>,
    minStock: Option<int>, supplier: Option<string>)
  {
    /** `{ ...p, ...this }`. */
    function ApplyTo(p: Product): (r: Product)
      ensures r.id == p.id
    {
      Product(p.id, Pick(name, p.name), Pick(price, p.price), Pick(stock, p.stock),
        Pick(category, p.category), Pick(description, p.description), PickOpt(image, p.image),
        Pick(sku, p.sku), PickOpt(minStock, p.minStock), PickOpt(supplier, p.supplier))
    }
  }

  datatype InvoiceItem = InvoiceItem(
    productId: string, productName: string, quantity: int, price: int, total: int)

  datatype Invoice = Invoice(
    id: string, customerId: string, customerName: string, items: seq<InvoiceItem>, total: int,
    status: InvoiceStatus, createdAt: string, dueDate: string, paymentMethod: Option<string>,
    paymentStatus: Option<InvoicePaymentStatus>, deliveryStatus: Option<InvoiceDeliveryStatus>)

  datatype InvoicePatch = InvoicePatch(
    customerId: Option<string>, customerName: Option<string>, items: Option<seq<InvoiceItem>>,
    total: Option<int>, status: Option<InvoiceStatus>, createdAt: Option<string>,
    dueDate: Option<string>, paymentMethod: Option<string>,
    paymentStatus: Option<InvoicePaymentStatus>, deliveryStatus: Option<InvoiceDeliveryStatus>)
  {
    /** `{ ...i, ...this }`. */
    function ApplyTo(i: Invoice): (r: Invoice)
      ensures r.id == i.id
    {
      Invoice(i.id, Pick(customerId, i.customerId), Pick(customerName, i.customerName),
        Pick(items, i.items), Pick(total, i.total), Pick(status, i.status),
        Pick(createdAt, i.createdAt), Pick(dueDate, i.dueDate),
        PickOpt(paymentMethod, i.paymentMethod), PickOpt(paymentStatus, i.paymentStatus),
        PickOpt(deliveryStatus, i.deliveryStatus))
    }
  }

  datatype Campaign = Campaign(
    id: string, name: string, kind: CampaignType, status: CampaignStatus,
    targetCustomers: seq<string>, message: string, scheduledAt: Option<string>,
    createdAt: string, sentCount: Option<int>, deliveredCount: Option<int>,
    readCount: Option<int>)

  datatype CampaignPatch = CampaignPatch(
    name: Option<string>, kind: Option<CampaignType>, status: Option<CampaignStatus>,
    targetCustomers: Option<seq<string>>, message: Option<string>, scheduledAt: Option<string>,
    createdAt: Option<string>, sentCount: Option<int>, deliveredCount: Option<int>,
    readCount: Option<int>)
  {
    /** `{ ...c, ...this }`. */
    function ApplyTo(c: Campaign): (r: Campaign)
      ensures r.id == c.id
    {
      Campaign(c.id, Pick(name, c.name), Pick(kind, c.kind), Pick(status, c.status),
        Pick(targetCustomers, c.targetCustomers), Pick(message, c.message),
        PickOpt(scheduledAt, c.scheduledAt), Pick(createdAt, c.createdAt),
        PickOpt(sentCount, c.sentCount), PickOpt(deliveredCount, c.deliveredCount),
        PickOpt(readCount, c.readCount))
    }
  }

  datatype Notification = Notification(
    id: string, title: string, message: string, kind: NotificationType, read: bool,
    createdAt: string)

  datatype Payment = Payment(
    id: string, invoiceId: string, customerId: string, amount: int, payMethod: PaymentMethod,
    status: PaymentStatus, transactionId: Option<string>, createdAt: string,
    gateway: Option<string>)

  datatype PaymentPatch = PaymentPatch(
    invoiceId: Option<string>, customerId: Option<string>, amount: Option<int>,
    payMethod: Option<PaymentMethod>, status: Option<PaymentStatus>,
    transactionId: Option<string>, createdAt: Option<string>, gateway: Option<string>)
  {
    /** `{ ...p, ...this }`. */
    function ApplyTo(p: Payment): (r: Payment)
      ensures r.id == p.id
    {
      Payment(p.id, Pick(invoiceId, p.invoiceId), Pick(customerId, p.customerId),
        Pick(amount, p.amount), Pick(payMethod, p.payMethod), Pick(status, p.status),
        PickOpt(transactionId, p.transactionId), Pick(createdAt, p.createdAt),
        PickOpt(gateway, p.gateway))
    }
  }

  datatype DeliveryOrder = DeliveryOrder(
    id: string, invoiceId: string, customerId: string, items: seq<InvoiceItem>,
    deliveryPartner: DeliveryPartner, status: DeliveryStatus, trackingId: Option<string>,
    estimatedDelivery: Option<string>, actualDelivery: Option<string>, createdAt: string)

  datatype DeliveryOrderPatch = DeliveryOrderPatch(
    invoiceId: Option<string>, customerId: Option<string>, items: Option<seq<InvoiceItem>>,
    deliveryPartner: Option<DeliveryPartner>, status: Option<DeliveryStatus>,
    trackingId: Option<string>, estimatedDelivery: Option<string>,
    actualDelivery: Option<string>, createdAt: Option<string>)
  {
    /** `{ ...o, ...this }`. */
    function ApplyTo(o: DeliveryOrder): (r: DeliveryOrder)
      ensures r.id == o.id
    {
      DeliveryOrder(o.id, Pick(invoiceId, o.invoiceId), Pick(customerId, o.customerId),
        Pick(items, o.items), Pick(deliveryPartner, o.deliveryPartner), Pick(status, o.status),
        PickOpt(trackingId, o.trackingId), PickOpt(estimatedDelivery, o.estimatedDelivery),
        PickOpt(actualDelivery, o.actualDelivery), Pick(createdAt, o.createdAt))
    }
  }

  datatype RequirementItem = RequirementItem(
    productName: string, quantity: int, unit: string, estimatedPrice: Option<int>,
    notes: Option<string>)

  datatype DailyRequirement = DailyRequirement(
    id: string, customerId: string, customerName: string, items: seq<RequirementItem>,
    requestDate: string, status: RequirementStatus, totalAmount: Option<int>,
    notes: Option<string>, source: RequirementSource)

  datatype DailyRequirementPatch = DailyRequirementPatch(
    customerId: Option<string>, customerName: Option<string>,
    items: Option<seq<RequirementItem>>, requestDate: Option<string>,
    status: Option<RequirementStatus>, totalAmount: Option<int>, notes: Option<string>,
    source: Option<RequirementSource>)
  {
    /** `{ ...r, ...this }`. */
    function ApplyTo(r: DailyRequirement): (m: DailyRequirement)
      ensures m.id == r.id
    {
      DailyRequirement(r.id, Pick(customerId, r.customerId), Pick(customerName, r.customerName),
        Pick(items, r.items), Pick(requestDate, r.requestDate), Pick(status, r.status),
        PickOpt(totalAmount, r.totalAmount), PickOpt(notes, r.notes), Pick(source, r.source))
    }
  }

  datatype WhatsAppLead = WhatsAppLead(
    id: string, customerPhone: string, customerName: Option<string>, message: string,
    timestamp: string, status: LeadStatus, assignedTo: Option<string>,
    followUpDate: Option<string>)

  datatype WhatsAppLeadPatch = WhatsAppLeadPatch(
    customerPhone: Option<string>, customerName: Option<string>, message: Option<string>,
    timestamp: Option<string>, status: Option<LeadStatus>, assignedTo: Option<string>,
    followUpDate: Option<string>)
  {
    /** `{ ...l, ...this }`. */
    function ApplyTo(l: WhatsAppLead): (r: WhatsAppLead)
      ensures r.id == l.id
    {
      WhatsAppLead(l.id, Pick(customerPhone, l.customerPhone), PickOpt(customerName, l.customerName),
        Pick(message, l.message), Pick(timestamp, l.timestamp), Pick(status, l.status),
        PickOpt(assignedTo, l.assignedTo), PickOpt(followUpDate, l.followUpDate))
    }
  }

  /** `{ status }`: the partial record the requirement status buttons send. */
  function RequirementStatusPatch(s: RequirementStatus): (p: DailyRequirementPatch)
    ensures forall r: DailyRequirement :: p.ApplyTo(r) == r.(status := s)
  {
    DailyRequirementPatch(None, None, None, None, Some(s), None, None, None)
  }

  /** `{ status }`: the partial record the lead status buttons send. */
  function LeadStatusPatch(s: LeadStatus): (p: WhatsAppLeadPatch)
    ensures forall l: WhatsAppLead :: p.ApplyTo(l) == l.(status := s)
  {
    WhatsAppLeadPatch(None, None, None, None, Some(s), None, None)
  }
}
