/** The voice assistant's phrase tables: for each language, an ordered list of
    (spoken phrase, view id) pairs. Order matters, because the matcher takes the first phrase
    that fits. Each table is the concatenation of its groups, in source order. */
module CommandTable {
  import opened Types

  type Table = seq<(string, string)>

  const EnNavigation: Table := [
    ("show dashboard", "dashboard"),
    ("open dashboard", "dashboard"),
    ("go to dashboard", "dashboard"),
    ("dashboard", "dashboard"),
    ("home", "dashboard")
  ]

  const EnCustomers: Table := [
    ("show customers", "customers"),
    ("open customers", "customers"),
    ("customer list", "customers"),
    ("customers", "customers"),
    ("view customers", "customers"),
    ("manage customers", "customers")
  ]

  const EnProducts: Table := [
    ("show products", "products"),
    ("open products", "products"),
    ("product list", "products"),
    ("products", "products"),
    ("inventory", "products"),
    ("stock", "products")
  ]

  const EnBilling: Table := [
    ("create bill", "billing"),
    ("new bill", "billing"),
    ("billing", "billing"),
    ("invoice", "billing"),
    ("create invoice", "billing"),
    ("new invoice", "billing")
  ]

  const EnPayments: Table := [
    ("show payments", "payments"),
    ("payments", "payments"),
    ("payment history", "payments"),
    ("transactions", "payments")
  ]

  const EnMarketing: Table := [
    ("marketing", "marketing"),
    ("campaigns", "marketing"),
    ("send campaign", "marketing"),
    ("whatsapp marketing", "marketing")
  ]

  const EnMessaging: Table := [
    ("send message", "messaging"),
    ("messaging", "messaging"),
    ("whatsapp", "messaging"),
    ("chat", "messaging")
  ]

  const EnReports: Table := [
    ("show reports", "reports"),
    ("reports", "reports"),
    ("analytics", "reports"),
    ("sales report", "reports")
  ]

  const EnSettings: Table := [
    ("open settings", "settings"),
    ("settings", "settings"),
    ("preferences", "settings")
  ]

  const EnOthers: Table := [
    ("notifications", "notifications"),
    ("profile", "profile"),
    ("delivery", "delivery"),
    ("orders", "delivery"),
    ("leads", "leads"),
    ("requirements", "requirements")
  ]

  const HiNavigation: Table := [
    ("डैशबोर्ड दिखाओ", "dashboard"),
    ("डैशबोर्ड खोलो", "dashboard"),
    ("डैशबोर्ड", "dashboard"),
    ("होम", "dashboard"),
    ("मुख्य पृष्ठ", "dashboard")
  ]

  const HiCustomers: Table := [
    ("ग्राहक दिखाओ", "customers"),
    ("ग्राहक खोलो", "customers"),
    ("ग्राहक सूची", "customers"),
    ("ग्राहक", "customers"),
    ("कस्टमर", "customers")
  ]

  const HiProducts: Table := [
    ("उत्पाद दिखाओ", "products"),
    ("उत्पाद खोलो", "products"),
    ("उत्पाद सूची", "products"),
    ("उत्पाद", "products"),
    ("प्रोडक्ट", "products"),
    ("स्टॉक", "products")
  ]

  const HiBilling: Table := [
    ("बिल बनाओ", "billing"),
    ("नया बिल", "billing"),
    ("बिलिंग", "billing"),
    ("चालान", "billing"),
    ("नया चालान", "billing")
  ]

  const HiPayments: Table := [
    ("भुगतान दिखाओ", "payments"),
    ("भुगतान", "payments"),
    ("पेमेंट", "payments"),
    ("लेनदेन", "payments")
  ]

  const HiMarketing: Table := [
    ("मार्केटिंग", "marketing"),
    ("अभियान", "marketing"),
    ("व्हाट्सएप मार्केटिंग", "marketing")
  ]

  const HiMessaging: Table := [
    ("संदेश भेजो", "messaging"),
    ("संदेश", "messaging"),
    ("व्हाट्सएप", "messaging"),
    ("चैट", "messaging")
  ]

  const HiReports: Table := [
    ("रिपोर्ट दिखाओ", "reports"),
    ("रिपोर्ट", "reports"),
    ("विश्लेषण", "reports")
  ]

  const HiSettings: Table := [
    ("सेटिंग्स खोलो", "settings"),
    ("सेटिंग्स", "settings"),
    ("सेटिंग", "settings")
  ]

  const HiOthers: Table := [
    ("सूचनाएं", "notifications"),
    ("प्रोफ़ाइल", "profile"),
    ("डिलीवरी", "delivery"),
    ("ऑर्डर", "delivery"),
    ("लीड्स", "leads"),
    ("आवश्यकताएं", "requirements")
  ]

  const EnCommands: Table :=
    EnNavigation + EnCustomers + EnProducts + EnBilling + EnPayments + EnMarketing
    + EnMessaging + EnReports + EnSettings + EnOthers

  const HiCommands: Table :=
    HiNavigation + HiCustomers + HiProducts + HiBilling + HiPayments + HiMarketing
    + HiMessaging + HiReports + HiSettings + HiOthers

  /** `voiceCommands[language]`. */
  function Commands(lang: Language): (t: Table)
    ensures |t| >= 2
  {
    match lang
    case En => EnCommands
    case Hi => HiCommands
  }

  /** The view ids the application's content switch renders by an explicit case. */
  const RenderedTabs: set<string> := {
    "dashboard", "customers", "products", "billing", "marketing", "notifications", "profile",
    "payments", "delivery", "requirements", "leads", "messaging", "reports", "settings" }

  /** Every entry leads to a rendered view and its phrase has at most 20 characters. */
  ghost predicate WellFormed(t: Table)
  {
    forall i :: 0 <= i < |t| ==> t[i].1 in RenderedTabs && |t[i].0| <= 20
  }

  lemma WellFormedConcat(a: Table, b: Table)
    requires WellFormed(a) && WellFormed(b)
    ensures WellFormed(a + b)
  {
    forall i | 0 <= i < |a + b|
      ensures (a + b)[i].1 in RenderedTabs && |(a + b)[i].0| <= 20
    {
      if i >= |a| {
        assert (a + b)[i] == b[i - |a|];
      }
    }
  }

  lemma EnNavigationWellFormed()
    ensures WellFormed(EnNavigation)
  {
    assert forall p :: p in EnNavigation ==> p.1 in RenderedTabs && |p.0| <= 20;
  }

  lemma EnCustomersWellFormed()
    ensures WellFormed(EnCustomers)
  {
    assert forall p :: p in EnCustomers ==> p.1 in RenderedTabs && |p.0| <= 20;
  }

  lemma EnProductsWellFormed()
    ensures WellFormed(EnProducts)
  {
    assert forall p :: p in EnProducts ==> p.1 in RenderedTabs && |p.0| <= 20;
  }

  lemma EnBillingWellFormed()
    ensures WellFormed(EnBilling)
  {
    assert forall p :: p in EnBilling ==> p.1 in RenderedTabs && |p.0| <= 20;
  }

  lemma EnPaymentsWellFormed()
    ensures WellFormed(EnPayments)
  {
    assert forall p :: p in EnPayments ==> p.1 in RenderedTabs && |p.0| <= 20;
  }

  lemma EnMarketingWellFormed()
    ensures WellFormed(EnMarketing)
  {
    assert forall p :: p in EnMarketing ==> p.1 in RenderedTabs && |p.0| <= 20;
  }

  lemma EnMessagingWellFormed()
    ensures WellFormed(EnMessaging)
  {
    assert forall p :: p in EnMessaging ==> p.1 in RenderedTabs && |p.0| <= 20;
  }

  lemma EnReportsWellFormed()
    ensures WellFormed(EnReports)
  {
    assert forall p :: p in EnReports ==> p.1 in RenderedTabs && |p.0| <= 20;
  }

  lemma EnSettingsWellFormed()
    ensures WellFormed(EnSettings)
  {
    assert forall p :: p in EnSettings ==> p.1 in RenderedTabs && |p.0| <= 20;
  }

  lemma EnOthersWellFormed()
    ensures WellFormed(EnOthers)
  {
    assert forall p :: p in EnOthers ==> p.1 in RenderedTabs && |p.0| <= 20;
  }

  lemma HiNavigationWellFormed()
    ensures WellFormed(HiNavigation)
  {
    assert forall p :: p in HiNavigation ==> p.1 in RenderedTabs && |p.0| <= 20;
  }

  lemma HiCustomersWellFormed()
    ensures WellFormed(HiCustomers)
  {
    assert forall p :: p in HiCustomers ==> p.1 in RenderedTabs && |p.0| <= 20;
  }

  lemma HiProductsWellFormed()
    ensures WellFormed(HiProducts)
  {
    assert forall p :: p in HiProducts ==> p.1 in RenderedTabs && |p.0| <= 20;
  }

  lemma HiBillingWellFormed()
    ensures WellFormed(HiBilling)
  {
    assert forall p :: p in HiBilling ==> p.1 in RenderedTabs && |p.0| <= 20;
  }

  lemma HiPaymentsWellFormed()
    ensures WellFormed(HiPayments)
  {
    assert forall p :: p in HiPayments ==> p.1 in RenderedTabs && |p.0| <= 20;
  }

  lemma HiMarketingWellFormed()
    ensures WellFormed(HiMarketing)
  {
    assert forall p :: p in HiMarketing ==> p.1 in RenderedTabs && |p.0| <= 20;
  }

  lemma HiMessagingWellFormed()
    ensures WellFormed(HiMessaging)
  {
    assert forall p :: p in HiMessaging ==> p.1 in RenderedTabs && |p.0| <= 20;
  }

  lemma HiReportsWellFormed()
    ensures WellFormed(HiReports)
  {
    assert forall p :: p in HiReports ==> p.1 in RenderedTabs && |p.0| <= 20;
  }

  lemma HiSettingsWellFormed()
    ensures WellFormed(HiSettings)
  {
    assert forall p :: p in HiSettings ==> p.1 in RenderedTabs && |p.0| <= 20;
  }

  lemma HiOthersWellFormed()
    ensures WellFormed(HiOthers)
  {
    assert forall p :: p in HiOthers ==> p.1 in RenderedTabs && |p.0| <= 20;
  }

  lemma EnFrontWellFormed()
    ensures WellFormed(EnNavigation + EnCustomers + EnProducts + EnBilling + EnPayments)
  {
    EnNavigationWellFormed();
    EnCustomersWellFormed();
    EnProductsWellFormed();
    EnBillingWellFormed();
    EnPaymentsWellFormed();
    WellFormedConcat(EnNavigation, EnCustomers);
    WellFormedConcat(EnNavigation + EnCustomers, EnProducts);
    WellFormedConcat(EnNavigation + EnCustomers + EnProducts, EnBilling);
    WellFormedConcat(EnNavigation + EnCustomers + EnProducts + EnBilling, EnPayments);
  }

  lemma EnBackWellFormed()
    ensures WellFormed(EnMarketing + EnMessaging + EnReports + EnSettings + EnOthers)
  {
    EnMarketingWellFormed();
    EnMessagingWellFormed();
    EnReportsWellFormed();
    EnSettingsWellFormed();
    EnOthersWellFormed();
    WellFormedConcat(EnMarketing, EnMessaging);
    WellFormedConcat(EnMarketing + EnMessaging, EnReports);
    WellFormedConcat(EnMarketing + EnMessaging + EnReports, EnSettings);
    WellFormedConcat(EnMarketing + EnMessaging + EnReports + EnSettings, EnOthers);
  }

  lemma EnWellFormed()
    ensures WellFormed(EnCommands)
  {
    EnFrontWellFormed();
    EnBackWellFormed();
    WellFormedConcat(EnNavigation + EnCustomers + EnProducts + EnBilling + EnPayments, EnMarketing + EnMessaging + EnReports + EnSettings + EnOthers);
    assert EnCommands == (EnNavigation + EnCustomers + EnProducts + EnBilling + EnPayments) + (EnMarketing + EnMessaging + EnReports + EnSettings + EnOthers);
  }

  lemma HiFrontWellFormed()
    ensures WellFormed(HiNavigation + HiCustomers + HiProducts + HiBilling + HiPayments)
  {
    HiNavigationWellFormed();
    HiCustomersWellFormed();
    HiProductsWellFormed();
    HiBillingWellFormed();
    HiPaymentsWellFormed();
    WellFormedConcat(HiNavigation, HiCustomers);
    WellFormedConcat(HiNavigation + HiCustomers, HiProducts);
    WellFormedConcat(HiNavigation + HiCustomers + HiProducts, HiBilling);
    WellFormedConcat(HiNavigation + HiCustomers + HiProducts + HiBilling, HiPayments);
  }

  lemma HiBackWellFormed()
    ensures WellFormed(HiMarketing + HiMessaging + HiReports + HiSettings + HiOthers)
  {
    HiMarketingWellFormed();
    HiMessagingWellFormed();
    HiReportsWellFormed();
    HiSettingsWellFormed();
    HiOthersWellFormed();
    WellFormedConcat(HiMarketing, HiMessaging);
    WellFormedConcat(HiMarketing + HiMessaging, HiReports);
    WellFormedConcat(HiMarketing + HiMessaging + HiReports, HiSettings);
    WellFormedConcat(HiMarketing + HiMessaging + HiReports + HiSettings, HiOthers);
  }

  lemma HiWellFormed()
    ensures WellFormed(HiCommands)
  {
    HiFrontWellFormed();
    HiBackWellFormed();
    WellFormedConcat(HiNavigation + HiCustomers + HiProducts + HiBilling + HiPayments, HiMarketing + HiMessaging + HiReports + HiSettings + HiOthers);
    assert HiCommands == (HiNavigation + HiCustomers + HiProducts + HiBilling + HiPayments) + (HiMarketing + HiMessaging + HiReports + HiSettings + HiOthers);
  }

  /** Every phrase in either table leads to a view that is rendered by its own case (none falls
      through to the default), and no phrase is longer than 20 characters. */
  lemma TargetsRendered(lang: Language)
    ensures forall i :: 0 <= i < |Commands(lang)| ==>
      Commands(lang)[i].1 in RenderedTabs && |Commands(lang)[i].0| <= 20
  {
    if lang == En { EnWellFormed(); } else { HiWellFormed(); }
  }
}
