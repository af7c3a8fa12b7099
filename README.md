# VyaparX bookkeeping core in Dafny

VyaparX is a small in-memory business dashboard for Indian shopkeepers, with English and
Hindi text. This project models its bookkeeping logic and proves properties of it. The model
covers three parts:

- **The application store.** This is one long-lived object, `AppStore.Store`, a class with one
  `seq` field per collection: customers, products, invoices, campaigns, notifications,
  payments, delivery orders, daily requirements and WhatsApp leads. It also holds the
  language, the active view and the sidebar flag. Every store method states its whole new
  state as `State() == old(State()).(field := …)`, so each one also says that nothing else
  changed. Each method also keeps the 50-entry notification cap (`Valid()`), and the ones that
  push or clear notifications establish it whatever the list held before.
- **The voice-command matcher** (module `Voice`, tables in `CommandTable`). It has three
  matching tiers, the word-overlap similarity score and the choice of up to two suggestions.
- **The view handlers.** These are the billing line editor, requirements, leads, marketing,
  payments, delivery, customers, products and the sidebar. Each builds records from store
  state, guards its store calls and edits item lists. Handlers are methods on a `Store` that
  take the view's form as a value and return the next form.

Other modelling choices:

- Money is a whole number, as in the seeded data.
- Clock readings (`Date.now()`, `new Date()`) are `AppStore.Stamp` or string parameters. The
  model never assumes that two readings differ.
- The confirmation dialog is a `bool` parameter.
- Case-insensitive search lower-cases ASCII letters only (`Text.Lower`).

Files:

| file | content |
|---|---|
| `wrappers.dfy` | `Option` |
| `text.dfy` | substring search, `split(' ')`/`join`, ASCII case mapping, trimming, decimal digits |
| `seqs.dfy` | filter, find, map-where, remove-at, sums and their lemmas |
| `types.dfy` | the record types and the partial records (`…Patch`) `update*` merges |
| `store.dfy` | the store class, the notification list and the seed data |
| `command_table.dfy`, `voice.dfy` | the phrase tables and the matcher |
| `input.dfy` | the numeric input fallbacks (`parseInt(…) || 1`, `… || 0`) |
| `billing.dfy` … `sidebar.dfy` | one module per view |

## Model

| member | source | states |
|---|---|---|
| AppStore.PushNotification | src/store/useStore.ts:376-385 | the new entry is first, the previous list follows in order, and the length is min(old + 1, 50) |
| AppStore.PushAllKeepsNewest | src/store/useStore.ts:382-384 | after any run of pushes, the list holds the pushed entries newest first, then the older list, cut to 50: only the 50 most recent remain |
| AppStore.MarkRead | src/store/useStore.ts:387-393 | same length; an entry is read afterwards iff it was read or has the id; no other field of any entry changes |
| AppStore.MarkReadIdempotent | src/store/useStore.ts:387-393 | marking the same id read twice equals marking it once |
| AppStore.AddedNotice | src/store/useStore.ts:155-162 | the notification an `add*` raises is an unread success whose message contains the added record's name |
| AppStore.Seed | src/store/useStore.ts:64-73 | the store starts in English on the dashboard with the sidebar closed and at most 50 notifications |
| AppStore.Store.constructor | src/store/useStore.ts:64-517 | the new store's state is the seed state, and the notification cap holds |
| AppStore.Store.SetLanguage | src/store/useStore.ts:67 | only the language changes, to the argument, unvalidated |
| AppStore.Store.SetActiveTab | src/store/useStore.ts:71 | only the active view changes, to the argument, unvalidated |
| AppStore.Store.SetSidebarOpen | src/store/useStore.ts:73 | only the sidebar flag changes |
| AppStore.Store.AddNotification | src/store/useStore.ts:376-385 | the stamped entry is pushed first; no other field changes and the list stays within 50 |
| AppStore.Store.MarkNotificationRead | src/store/useStore.ts:387-393 | the notification list becomes `MarkRead` of the old one; nothing else changes |
| AppStore.Store.ClearNotifications | src/store/useStore.ts:395-397 | the notification list becomes empty; nothing else changes; the cap holds afterwards |
| AppStore.Store.AddCustomer | src/store/useStore.ts:146-163 | one customer is appended with id, creation date and QR code stamped over the input, and one success notice is pushed; nothing else changes |
| AppStore.Store.UpdateCustomer | src/store/useStore.ts:165-169 | the customers with the id are merged with the patch, the others stay and the order is kept; nothing else changes |
| AppStore.Store.DeleteCustomer | src/store/useStore.ts:171-175 | every customer with the id is dropped and the rest keep their order; no other collection changes (no cascade) |
| AppStore.Store.AddProduct | src/store/useStore.ts:236-252 | one product is appended with id and SKU stamped over the input, and one success notice is pushed |
| AppStore.Store.UpdateProduct | src/store/useStore.ts:254-258 | the products with the id are merged with the patch; nothing else changes |
| AppStore.Store.DeleteProduct | src/store/useStore.ts:260-264 | every product with the id is dropped, in order; nothing else changes |
| AppStore.Store.AddInvoice | src/store/useStore.ts:300-316 | one invoice is appended with id `INV<millis>` and its date, and one success notice naming the customer is pushed |
| AppStore.Store.UpdateInvoice | src/store/useStore.ts:318-322 | the invoices with the id are merged with the patch; nothing else changes |
| AppStore.Store.AddCampaign | src/store/useStore.ts:340-356 | one campaign is appended with id and date, and one success notice is pushed |
| AppStore.Store.UpdateCampaign | src/store/useStore.ts:358-362 | the campaigns with the id are merged with the patch; nothing else changes |
| AppStore.Store.AddPayment | src/store/useStore.ts:414-421 | one payment is appended with id `PAY<millis>` and its date; no notification, nothing else changes |
| AppStore.Store.UpdatePayment | src/store/useStore.ts:423-427 | the payments with the id are merged with the patch; nothing else changes |
| AppStore.Store.AddDeliveryOrder | src/store/useStore.ts:447-454 | one order is appended with id `DEL<millis>` and its date; no notification |
| AppStore.Store.UpdateDeliveryOrder | src/store/useStore.ts:456-460 | the orders with the id are merged with the patch; nothing else changes |
| AppStore.Store.AddDailyRequirement | src/store/useStore.ts:479-485 | one requirement is appended with id `REQ<millis>`; its request date is the caller's; no notification |
| AppStore.Store.UpdateDailyRequirement | src/store/useStore.ts:487-491 | the requirements with the id are merged with the patch; nothing else changes |
| AppStore.Store.AddWhatsAppLead | src/store/useStore.ts:505-511 | one lead is appended with id `LEAD<millis>`; no notification |
| AppStore.Store.UpdateWhatsAppLead | src/store/useStore.ts:513-517 | the leads with the id are merged with the patch; nothing else changes |
| Seqs.MapWhere | src/store/useStore.ts:165-169 | an id-keyed update keeps the length; matching records become the merge and the others are untouched |
| Seqs.MapWhereNoMatch | src/store/useStore.ts:165-169 | an update whose id matches no record leaves the collection identical |
| Seqs.Filter | src/store/useStore.ts:171-175 | a delete keeps exactly the records that pass, and no more than there were |
| Seqs.FilterConcat | src/store/useStore.ts:171-175 | filtering keeps relative order: it distributes over concatenation |
| Seqs.InFilter | src/store/useStore.ts:260-264 | a record survives a delete iff it was there and passes the test |
| Types.CustomerPatch.ApplyTo | src/store/useStore.ts:167 | `{ ...c, ...customer }` keeps the id |
| Types.ProductPatch.ApplyTo | src/store/useStore.ts:256 | the product merge keeps the id |
| Types.InvoicePatch.ApplyTo | src/store/useStore.ts:320 | the invoice merge keeps the id |
| Types.CampaignPatch.ApplyTo | src/store/useStore.ts:360 | the campaign merge keeps the id |
| Types.PaymentPatch.ApplyTo | src/store/useStore.ts:425 | the payment merge keeps the id |
| Types.DeliveryOrderPatch.ApplyTo | src/store/useStore.ts:458 | the order merge keeps the id |
| Types.DailyRequirementPatch.ApplyTo | src/store/useStore.ts:489 | the requirement merge keeps the id |
| Types.WhatsAppLeadPatch.ApplyTo | src/store/useStore.ts:515 | the lead merge keeps the id |
| Types.RequirementStatusPatch | src/components/Requirements.tsx:98-100 | merging `{ status }` into any requirement changes its status and nothing else |
| Types.LeadStatusPatch | src/components/Leads.tsx:81-83 | merging `{ status }` into any lead changes its status and nothing else |
| CommandTable.Commands | src/components/VoiceCommand.tsx:15-149 | each language's table has at least two phrases |
| CommandTable.TargetsRendered | src/components/VoiceCommand.tsx:15-149 | every target in both tables is a view the application renders, and every phrase has at most 20 characters |
| Voice.Keys | src/components/VoiceCommand.tsx:255 | `Object.keys(commands)` lists the phrases in table order |
| Voice.FirstHit | src/components/VoiceCommand.tsx:255-257 | one tier's `find` returns the first index that fits, and none exactly when no entry fits |
| Voice.Match | src/components/VoiceCommand.tsx:254-275 | the exact tier decides if it has a hit, else the substring tier, else the word tier, each picking its first fitting entry; no match iff no tier has a hit |
| Voice.TiersNested | src/components/VoiceCommand.tsx:254-275 | an exact hit is a substring hit and a substring hit is a word hit |
| Voice.IncludedSharesWord | src/components/VoiceCommand.tsx:261-273 | if one string contains the other, some word of each overlaps some word of the other |
| Voice.MatchedIffWordShared | src/components/VoiceCommand.tsx:254-275 | a transcript is recognised iff some phrase shares an overlapping word with it |
| Voice.EmptyWordPicksFirstPhrase | src/components/VoiceCommand.tsx:268-274 | a transcript with an empty word (a doubled space) and no earlier-tier hit matches the table's first phrase |
| Voice.CountWith | src/components/VoiceCommand.tsx:327-331 | the inner loop's count of overlapping words never exceeds the list's length |
| Voice.CountPairsBounded | src/components/VoiceCommand.tsx:326-332 | the overlapping pairs never exceed the product of the word counts |
| Voice.SimilarityBounded | src/components/VoiceCommand.tsx:321-335 | the similarity's match count never exceeds the product of the two word counts |
| Voice.CalculateSimilarity | src/components/VoiceCommand.tsx:321-335 | the nested counting loops compute `Similarity` |
| Voice.CountPairsSnoc | src/components/VoiceCommand.tsx:326-332 | one more word on the right adds its overlaps with the left list |
| Voice.CountPairsSymmetric | src/components/VoiceCommand.tsx:326-332 | the pair count does not depend on which list is outer |
| Voice.SimilaritySymmetric | src/components/VoiceCommand.tsx:321-335 | the similarity of two strings does not depend on their order |
| Voice.BetterThenNotWorse | src/components/VoiceCommand.tsx:314 | comparing scores by cross-multiplication is transitive across a tie |
| Voice.NotWorseThenBetter | src/components/VoiceCommand.tsx:314 | the other mixed transitivity law of the score order |
| Voice.BestUpTo | src/components/VoiceCommand.tsx:313-315 | the earliest best qualifying entry among a prefix, and none exactly when none clears 0.3 |
| Voice.SuggestionIndices | src/components/VoiceCommand.tsx:308-316 | at most two indices; none iff no score clears 0.3; the first is the earliest best, the second the earliest best of the rest, and one index only when it is the sole qualifier |
| Voice.SingleQualifierAlone | src/components/VoiceCommand.tsx:308-318 | a single qualifying phrase is suggested alone |
| Voice.Scored | src/components/VoiceCommand.tsx:309-312 | one scored entry per phrase, in table order |
| Voice.ScoredIsSimilarity | src/components/VoiceCommand.tsx:309-312 | each phrase is scored by its similarity to the transcript |
| Voice.Suggestions | src/components/VoiceCommand.tsx:303-319 | one or two phrases: the qualifiers by descending score with ties in table order, or the first two phrases when none qualifies |
| Voice.VoiceNotice | src/components/VoiceCommand.tsx:281-290 | the recognition notice is an unread success whose message names the phrase |
| Voice.ProcessCommand | src/components/VoiceCommand.tsx:251-301 | on a match the active view becomes the phrase's target and exactly one notice is pushed; otherwise the store is unchanged and the suggestions are returned |
| Voice.ShowCustomersOpensCustomers | src/components/VoiceCommand.tsx:25 | "show customers" resolves in the exact tier to `customers` |
| Voice.SubstringTierDecides | src/components/VoiceCommand.tsx:260-263 | with no exact hit, the first substring hit decides |
| Voice.CustomerListInSentence | src/components/VoiceCommand.tsx:27 | "open the customer list please" resolves in the substring tier via "customer list" to `customers` |
| Voice.EnFallbackSuggestions | src/components/VoiceCommand.tsx:18-19 | with no English phrase above 0.3, the suggestions are "show dashboard" and "open dashboard" |
| FormInput.CountOrOne | src/components/Billing.tsx:279 | a quantity that fails to parse or parses to 0 becomes 1; any other parse is kept; the result is never 0 |
| FormInput.NumberOrZero | src/components/Products.tsx:238-253 | the result is 0 exactly when the parse fails or yields 0; any non-zero result is the parsed number |
| Billing.TotalIsSumOfAmounts | src/components/Billing.tsx:61-63 | when every line is consistent, the total is the sum of quantity times price |
| Billing.AddItem | src/components/Billing.tsx:29-37 | one line is appended (product id "", product name "", quantity 1, price 0, total 0) and the others are unchanged |
| Billing.AddItemKeepsTotals | src/components/Billing.tsx:29-37 | adding a line keeps every line consistent, leaves the total as it was and brings in no quantity 0 |
| Billing.EditedLineConsistent | src/components/Billing.tsx:43-52 | a typed quantity or price makes the line consistent, and no edit breaks a consistent line |
| Billing.ChooseProductCopies | src/components/Billing.tsx:43-49 | choosing a known product copies its name and price and recomputes the total; an unknown id changes only the product id |
| Billing.TypedInputFallbacks | src/components/Billing.tsx:279-293 | a typed quantity that fails to parse or parses to 0 is stored as 1, so never as 0; a typed price that fails to parse is stored as 0 with total 0; the total is always the new quantity times the new price |
| Billing.UpdateItem | src/components/Billing.tsx:39-55 | same length, only the line at the index changes, and it becomes the edited line; a typed quantity is never stored as 0 and an unparseable price stores price and total 0 |
| Billing.UpdateKeepsTotals | src/components/Billing.tsx:39-63 | an edit keeps the lines consistent, keeps every quantity non-zero and moves the total by exactly the edited line's change |
| Billing.RemoveItem | src/components/Billing.tsx:57-59 | exactly the line at the index is dropped and the others keep their order; an index out of range changes nothing |
| Billing.RemoveKeepsTotals | src/components/Billing.tsx:57-63 | removing a line keeps consistency and non-zero quantities, and takes exactly its total off the sum |
| Billing.SeedInvoiceTotal | src/components/Billing.tsx:61-63 | the seeded lines 2 × 250 and 3 × 60 total 680, the total INV001 is stored with |
| Billing.DraftInvoice | src/components/Billing.tsx:69-76 | the invoice copies the customer's id and name and the lines, its total is `calculateTotal`, its status is Draft |
| Billing.HandleCreateInvoice | src/components/Billing.tsx:65-82 | an unknown customer or no lines changes nothing; otherwise one draft invoice and its notice are added and the form is cleared |
| Billing.FilteredInvoices | src/components/Billing.tsx:24-27 | an invoice is listed iff its customer name or id contains the term, ignoring case |
| Billing.EmptySearchShowsAll | src/components/Billing.tsx:24-27 | an empty search lists every invoice, in order |
| Requirements.AddItem | src/components/Requirements.tsx:63-65 | one row is appended (name "", quantity 1, unit "kg", price 0, notes "") and the others are unchanged |
| Requirements.EditChangesOneField | src/components/Requirements.tsx:67-71 | an edit changes exactly the named field of the row |
| Requirements.TypedInputFallbacks | src/components/Requirements.tsx:401-432 | a typed quantity that fails to parse or parses to 0 is stored as 1, so never as 0; a typed estimated price that fails to parse is stored as 0 |
| Requirements.RowEditsKeepQuantitiesNonZero | src/components/Requirements.tsx:63-75 | adding, editing and removing rows never brings in a quantity of 0 |
| Requirements.UpdateItem | src/components/Requirements.tsx:67-71 | same length, only the row at the index changes, and it becomes the edited row; a typed quantity is never stored as 0 |
| Requirements.RemoveItem | src/components/Requirements.tsx:73-75 | exactly the row at the index is dropped, in order |
| Requirements.SubmittedItems | src/components/Requirements.tsx:84 | the submitted rows are exactly those whose trimmed name is not empty |
| Requirements.SubmittedItemsInOrder | src/components/Requirements.tsx:84 | the row filter keeps the original order, and a blank added row is never submitted |
| Requirements.NewRequirement | src/components/Requirements.tsx:81-91 | the requirement copies the customer's id and name, is Pending, carries the named rows, the notes and the source |
| Requirements.HandleSubmit | src/components/Requirements.tsx:77-96 | an unknown customer or an empty row list changes nothing; otherwise one requirement is added and the form resets to one blank row |
| Requirements.HandlerAcceptsOnlyBlankRows | src/components/Requirements.tsx:79 | the handler's own guard lets through a form of blank rows, which yields a requirement with no items |
| Requirements.EnabledSubmitHasItems | src/components/Requirements.tsx:472 | when the submit button is enabled, the requirement has at least one item |
| Requirements.NextStatus | src/components/Requirements.tsx:276-299 | a button moves one step forward (Pending → Quoted → Confirmed → Delivered), never to Paid; Delivered and Paid offer none |
| Requirements.ButtonsOnlyAdvance | src/components/Requirements.tsx:276-299 | any number of presses never moves a status backward and never reaches Paid |
| Requirements.PressStatusButton | src/components/Requirements.tsx:98-100 | with no button nothing changes; otherwise only the requirements with that id take the next status |
| Requirements.FilteredRequirements | src/components/Requirements.tsx:29-32 | a requirement is listed iff its customer name or an item's name contains the term, ignoring case |
| Requirements.EmptySearchShowsAll | src/components/Requirements.tsx:29-32 | an empty search lists every requirement, in order |
| Leads.NewLead | src/components/Leads.tsx:64-70 | the lead carries the form's phone, name and message, the timestamp and status New |
| Leads.HandleCreateLead | src/components/Leads.tsx:64-79 | an empty phone or message changes nothing; otherwise one New lead is added and the form is cleared |
| Leads.ButtonsMoveForward | src/components/Leads.tsx:248-290 | every button moves forward; Closed offers none; every other status offers Closed |
| Leads.RunsAreShort | src/components/Leads.tsx:248-290 | any run of button presses is at most three long and only moves forward |
| Leads.UpdateStatus | src/components/Leads.tsx:81-83 | only the leads with that id take the new status; nothing else changes |
| Leads.AgeOf | src/components/Leads.tsx:53-62 | under a minute is "just now", under 60 minutes minutes, under 1440 hours, otherwise days, each by floor division |
| Leads.FormatTimeReadsBack | src/components/Leads.tsx:53-62 | outside "just now", the text starts with the bucket's number (at least 1) in decimal digits, which read back as that number, followed by a space |
| Leads.PriorityOf | src/components/Leads.tsx:85-93 | under an hour is High, under 24 hours Medium, otherwise Low |
| Leads.PriorityFallsWithAge | src/components/Leads.tsx:85-93 | an older lead never has a higher priority than a newer one |
| Leads.HighPriorityIsMinutesOld | src/components/Leads.tsx:53-93 | a lead is High priority iff its age shows as "just now" or in minutes |
| Leads.FilteredLeads | src/components/Leads.tsx:28-32 | a lead is listed iff its name or message contains the term ignoring case, or its phone contains it as typed |
| Leads.EmptySearchShowsAll | src/components/Leads.tsx:28-32 | an empty search lists every lead, in order |
| Leads.HeadingAsWritten | src/components/Leads.tsx:215 | the heading as written is always one of the two placeholders |
| Leads.HeadingAsWrittenHidesName | src/components/Leads.tsx:215 | a lead named "Ramesh" is headed "Unknown Customer" |
| Leads.Heading | src/components/Leads.tsx:215 | the heading shows the name when there is one, else the placeholder of the language |
| Leads.HeadingsAgreeOnUnnamed | src/components/Leads.tsx:215 | the two headings agree exactly on leads without a name |
| Marketing.Toggle | src/components/Marketing.tsx:50-57 | the id is present afterwards iff it was absent, and every other id keeps its membership |
| Marketing.ToggleTwiceRestores | src/components/Marketing.tsx:50-57 | toggling an absent id twice restores the list |
| Marketing.ToggleKeepsDistinct | src/components/Marketing.tsx:50-57 | a toggle keeps a list free of duplicates |
| Marketing.SelectAll | src/components/Marketing.tsx:59-64 | the targets become the customer ids, in customer order |
| Marketing.SelectAllTargetsEveryone | src/components/Marketing.tsx:59-64 | every customer is targeted, and distinct customer ids give a list without duplicates |
| Marketing.DraftCampaign | src/components/Marketing.tsx:34-42 | the campaign carries the form's fields, status Draft and no counts |
| Marketing.HandleSubmit | src/components/Marketing.tsx:34-48 | one campaign and its notice are added, the modal closes and the form resets to blank, whose submit is disabled |
| Marketing.FilteredCampaigns | src/components/Marketing.tsx:30-32 | a campaign is listed iff its name contains the term, ignoring case |
| Marketing.EmptySearchShowsAll | src/components/Marketing.tsx:30-32 | an empty search lists every campaign, in order |
| Marketing.Preview | src/components/Marketing.tsx:208-211 | a message of up to 100 characters is shown whole, a longer one as its first 100 plus "..." |
| Marketing.PreviewIsBoundedPrefix | src/components/Marketing.tsx:208-211 | the preview starts with the message's first min(length, 100) characters and is at most 103 long |
| Payments.Gateway | src/components/Payments.tsx:53 | UPI goes through PhonePe, Card through Razorpay, any other method under its own name |
| Payments.GatewayIdentifiesMethod | src/components/Payments.tsx:53 | no two methods share a gateway |
| Payments.CashNeverOffered | src/components/Payments.tsx:81-122 | the modal offers no Cash button, so no recorded gateway is "Cash" |
| Payments.PendingInvoices | src/components/Payments.tsx:38-40 | an invoice is pending iff its payment status is Pending or missing |
| Payments.TotalReceivedAfterRecording | src/components/Payments.tsx:182 | recording a successful payment raises "Total Received" by its amount; any other leaves it alone |
| Payments.NewPayment | src/components/Payments.tsx:46-56 | the payment copies the invoice's id, customer and total, is a Success, and carries the gateway and transaction id |
| Payments.HandlePayment | src/components/Payments.tsx:42-59 | an unknown invoice changes nothing; otherwise one payment is added, "Pending Amount" stays and "Total Received" grows by the invoice total |
| Payments.FilteredPayments | src/components/Payments.tsx:28-36 | a payment is listed iff its transaction id, its customer's name or its invoice's id contains the term, ignoring case |
| Payments.EmptySearchShowsTraceable | src/components/Payments.tsx:28-36 | with an empty search a payment is listed iff it has a transaction id or a known customer or invoice |
| Delivery.TrackingId | src/components/Delivery.tsx:80 | the tracking id is the partner name upper-cased followed by the clock reading |
| Delivery.TrackingIdFoundByPartnerName | src/components/Delivery.tsx:80 | searching for the partner's name in any case finds the tracking id |
| Delivery.PendingInvoices | src/components/Delivery.tsx:44-46 | an invoice is pending iff its delivery status is Pending or missing |
| Delivery.CountersPartitionOrders | src/components/Delivery.tsx:154-186 | the Delivered, In Transit and Failed counters plus the pending or picked orders add up to all orders |
| Delivery.AssignedOrderCountsInTransit | src/components/Delivery.tsx:170 | an Assigned order raises the In Transit counter by one and leaves the others alone |
| Delivery.NewOrder | src/components/Delivery.tsx:74-84 | the order copies the invoice's id, customer and items, is Assigned to the chosen partner and carries the tracking id and tomorrow's date |
| Delivery.HandleCreateDelivery | src/components/Delivery.tsx:70-87 | an unknown invoice changes nothing; otherwise one order is added, the pending invoices stay the same and In Transit grows by one |
| Delivery.FilteredOrders | src/components/Delivery.tsx:34-41 | an order is listed iff its tracking id, its customer's name or its id contains the term, ignoring case |
| Delivery.EmptySearchShowsAll | src/components/Delivery.tsx:34-41 | an empty search lists every order, in order |
| Delivery.NewOrderFoundByPartner | src/components/Delivery.tsx:34-41 | a handler-created order is found by searching for its partner's name |
| Customers.SavedCustomerReadsBack | src/components/Customers.tsx:48-69 | an added customer reads back as the form; an edit keeps id, creation date and QR code and reads back when the optional fields are present; an unchanged edit is the identity |
| Customers.OpenAdd | src/components/Customers.tsx:114-128 | the Add button clears the edited id and opens the blank form |
| Customers.OpenEdit | src/components/Customers.tsx:71-75 | editing loads the customer into the form and remembers its id |
| Customers.HandleSubmit | src/components/Customers.tsx:48-69 | when editing, only the customers with that id take the form; otherwise one customer and its notice are added; the modal closes and the form resets |
| Customers.AddButtonAdds | src/components/Customers.tsx:114-128 | after the Add button a submit takes the add path |
| Customers.HandleDelete | src/components/Customers.tsx:77-81 | without confirmation nothing changes; with it exactly the customers with the id go, in order |
| Customers.FilteredCustomers | src/components/Customers.tsx:41-46 | a customer is listed iff name, email or business type contains the term ignoring case, or the phone contains it as typed |
| Customers.EmptySearchShowsAll | src/components/Customers.tsx:41-46 | an empty search lists every customer, in order |
| Customers.Lookup | src/components/Customers.tsx:88-96 | a found value is stored under the key; no value means no entry has the key |
| Customers.QrPayloadReadsBack | src/components/Customers.tsx:88-96 | the payload gives back name, phone, email, business type and id and has no other key |
| Products.NewProduct | src/components/Products.tsx:20-26 | the added product has no minimum stock, image or supplier |
| Products.TypedInputFallbacks | src/components/Products.tsx:238-253 | a typed price or stock that fails to parse is stored as 0 and a parsed one is kept, with the other fields unchanged; an unparseable stock shows red once saved |
| Products.SavedProductReadsBack | src/components/Products.tsx:33-49 | an added or edited product reads back as the form; an edit keeps id, SKU, minimum stock, image and supplier; an unchanged edit is the identity |
| Products.OpenAdd | src/components/Products.tsx:79-89 | the Add button clears the edited id and opens the blank form |
| Products.OpenEdit | src/components/Products.tsx:51-55 | editing loads the product into the form and remembers its id |
| Products.HandleSubmit | src/components/Products.tsx:33-49 | when editing, only the products with that id take the form; otherwise one product and its notice are added; the form resets |
| Products.AddButtonAdds | src/components/Products.tsx:35-40 | after the Add button a submit takes the add path |
| Products.HandleDelete | src/components/Products.tsx:57-61 | without confirmation nothing changes; with it exactly the products with the id go, in order |
| Products.FilteredProducts | src/components/Products.tsx:28-31 | a product is listed iff its name or category contains the term, ignoring case |
| Products.EmptySearchShowsAll | src/components/Products.tsx:28-31 | an empty search lists every product, in order |
| Products.StockLevelOf | src/components/Products.tsx:169-172 | green above 10, orange from 1 to 10, red at 0 or below |
| Products.StockLevelMonotone | src/components/Products.tsx:169-172 | more stock never shows a worse colour, and a product added from the blank form shows red |
| Sidebar.Toggled | src/components/Sidebar.tsx:44-46 | the language button always switches language |
| Sidebar.ToggleTwiceRestores | src/components/Sidebar.tsx:44-46 | pressing it twice restores the language |
| Sidebar.HandleTabChange | src/components/Sidebar.tsx:39-42 | the view becomes the tab and the sidebar closes; nothing else changes |
| Sidebar.ToggleLanguage | src/components/Sidebar.tsx:44-46 | only the language changes, to the other one |
| Sidebar.CloseOverlay | src/components/Sidebar.tsx:53 | only the sidebar flag changes, to closed |
| Sidebar.MenuIdsDistinct | src/components/Sidebar.tsx:22-34 | no menu id appears twice |
| Sidebar.OneEntryHighlighted | src/components/Sidebar.tsx:96 | after a menu click exactly the clicked entry is highlighted; a view outside the menu highlights none |
| Sidebar.VoiceOnlyViews | src/components/VoiceCommand.tsx:80-83 | every menu id is a rendered view; delivery, requirements and leads have no entry but are targets of English voice commands |

## Left out

- Speech recognition and speech synthesis are browser I/O. The matcher starts from the final lower-cased, trimmed transcript. Spoken replies are not modelled; `Voice.ProcessCommand` returns the suggestions instead of speaking them.
- Lower-casing and upper-casing map ASCII letters only. JavaScript's full Unicode case mapping is not modelled. The Hindi phrases contain no cased letters.
- The similarity score is kept as a fraction and compared by cross-multiplication, not as a floating-point number.
- `Array.prototype.sort` is assumed stable, as current engines guarantee. `Voice.Suggestions` is stated as a stable top-two selection rather than by modelling a sort.
- Prices are whole numbers. `parseFloat` fractions and `toLocaleString`/`toFixed` formatting are not modelled.
- String lengths count characters. JavaScript counts UTF-16 code units, which differ for characters outside the Basic Multilingual Plane; this affects `Marketing.Preview`.
- Clock readings are parameters. Their uniqueness is not assumed, and the fact that a record and its notification read the clock separately is kept as two stamps.
- Each `add*` with a notice performs two separate state updates in the source. The model states only the final state of the pair.
- Patches: a partial record cannot carry an `id`, and cannot set an optional field back to `undefined`. The view handlers never send either.
- Customers.OpenEdit: the edit form in the source also holds the customer's id, creation date and QR code (`{ ...customer }`). The model's form leaves them out, and `Customers.PatchOf` never sends them.
- Products.OpenEdit: the edit form in the source is the whole product (`setFormData(product)`), so a submit also writes back its id, SKU, minimum stock, image and supplier to every product with that id. The model's form holds only the five editable fields and `Products.PatchOf` sends nothing for the others, so when two products share an id the model keeps each one's SKU, minimum stock, image and supplier where the source copies the edited product's.
- Billing.UpdateItem: requires an index inside the list. The line editor only calls it for a rendered row.
- Requirements.UpdateItem: requires an index inside the list, for the same reason.
- The QR payload is modelled as its keys and values in order. The JSON text and the QR image are not modelled.
- `confirm()` is a boolean parameter.
- The stat cards of the requirements and leads views only count by status and are not modelled. The same goes for JSX markup, colour classes and icons, the read-only dashboard, notifications and header views, and the profile page.

## Findings

| source | as written | input that shows it | evidently intended | confidence | as-written member | corrected member |
|---|---|---|---|---|---|---|
| src/components/Leads.tsx:215 | `lead.customerName \|\| language === 'en' ? 'Unknown Customer' : '…'` parses as `(name \|\| en) ? 'Unknown Customer' : Hindi placeholder`, so the name is never shown | a lead named "Ramesh" is headed "Unknown Customer" in both languages | show the name, falling back to the placeholder of the language | not executed | Leads.HeadingAsWritten, Leads.HeadingAsWrittenHidesName | Leads.Heading |
