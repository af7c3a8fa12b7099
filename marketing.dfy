/** The marketing view: the new-campaign form with its target-customer checklist, the submit
    handler that records the campaign as a draft, the campaign search and the message
    preview on each card. */
module Marketing {
  import opened Wrappers
  import opened Types
  import Seqs
  import Text
  import AppStore

  /** The new-campaign modal: whether it is open, and its fields. */
  datatype Form = Form(
    showCreateModal: bool, name: string, kind: CampaignType, message: string, targetCustomers: seq<string>,
    scheduledAt: string)

  const BlankForm: Form := Form(false, "", CampaignType.WhatsApp, "", [], "")

  // ---------------------------------------------------------------------------
  // The target checklist
  // ---------------------------------------------------------------------------

  /** `toggleCustomer(id)`: a listed id is taken out (every copy of it), an unlisted one is
      appended. */
  function Toggle(targets: seq<string>, id: string): (r: seq<string>)
    ensures id in r <==> id !in targets
    ensures forall x :: x != id ==> (x in r <==> x in targets)
  {
    if id in targets then
      Seqs.InFilter(targets, (x: string) => x != id, id);
      assert forall x :: x != id ==> (x in Seqs.Filter(targets, (y: string) => y != id) <==> x in targets) by {
        forall x | x != id {
          Seqs.InFilter(targets, (y: string) => y != id, x);
        }
      }
      Seqs.Filter(targets, (x: string) => x != id)
    else
      targets + [id]
  }

  /** Ticking a box twice, starting unticked, gives back the same list in the same order. */
  lemma ToggleTwiceRestores(targets: seq<string>, id: string)
    requires id !in targets
    ensures Toggle(Toggle(targets, id), id) == targets
  {
    var p := (x: string) => x != id;
    Seqs.FilterConcat(targets, [id], p);
    Seqs.FilterKeepsAll(targets, p);
    assert Seqs.Filter([id], p) == [];
  }

  /** A list without repeats stays without repeats. */
  lemma ToggleKeepsDistinct(targets: seq<string>, id: string)
    requires Seqs.Distinct(targets)
    ensures Seqs.Distinct(Toggle(targets, id))
  {
    if id in targets {
      Seqs.FilterDistinct(targets, (x: string) => x != id);
    } else {
      var r := targets + [id];
      forall i, j | 0 <= i < j < |r| ensures r[i] != r[j] {
        if j == |targets| {
          assert r[i] == targets[i];
        }
      }
    }
  }

  /** `selectAllCustomers()`: the ids of all customers, in customer order. */
  function SelectAll(customers: seq<Customer>): (r: seq<string>)
    ensures |r| == |customers|
    ensures forall i :: 0 <= i < |customers| ==> r[i] == customers[i].id
  {
    if customers == [] then [] else [customers[0].id] + SelectAll(customers[1..])
  }

  /** Selecting all targets every customer, and with distinct customer ids gives a list that
      toggling keeps free of repeats. */
  lemma SelectAllTargetsEveryone(customers: seq<Customer>)
    ensures forall c :: c in customers ==> c.id in SelectAll(customers)
    ensures (forall i, j :: 0 <= i < j < |customers| ==> customers[i].id != customers[j].id)
      ==> Seqs.Distinct(SelectAll(customers))
  {
    var r := SelectAll(customers);
    forall c | c in customers ensures c.id in r {
      var i :| 0 <= i < |customers| && customers[i] == c;
      assert r[i] == c.id;
    }
  }

  // ---------------------------------------------------------------------------
  // handleSubmit
  // ---------------------------------------------------------------------------

  /** The campaign the handler records: the form's fields with status Draft. The store stamps
      its id and creation date. */
  function DraftCampaign(form: Form): (c: Campaign)
    ensures c.name == form.name && c.kind == form.kind && c.message == form.message
    ensures c.targetCustomers == form.targetCustomers && c.scheduledAt == Some(form.scheduledAt)
    ensures c.status == CampaignStatus.Draft
    ensures c.sentCount.None? && c.deliveredCount.None? && c.readCount.None?
  {
    Campaign("", form.name, form.kind, CampaignStatus.Draft, form.targetCustomers, form.message,
      Some(form.scheduledAt), "", None, None, None)
  }

  /** The create button is enabled once some customer is targeted. */
  predicate SubmitEnabled(form: Form)
  {
    |form.targetCustomers| > 0
  }

  /** `handleSubmit()`: one draft campaign is added, with its notification, and the form is
      cleared and closed. The handler has no guard of its own: only the button's condition keeps an
      untargeted campaign out. */
  method HandleSubmit(store: AppStore.Store, form: Form, at: AppStore.Stamp, noticeAt: AppStore.Stamp)
    returns (next: Form)
    modifies store
    ensures next == BlankForm && !next.showCreateModal && !SubmitEnabled(next)
    ensures store.State() == old(store.State()).(
      campaigns := old(store.campaigns) + [DraftCampaign(form).(id := at.millis, createdAt := at.date)],
      notifications := AppStore.PushNotification(old(store.notifications),
        AppStore.AddedNotice(AppStore.CampaignCreated, old(store.language), form.name)
          .(id := noticeAt.millis, createdAt := noticeAt.iso)))
  {
    store.AddCampaign(DraftCampaign(form), at, noticeAt);
    next := BlankForm;
  }

  // ---------------------------------------------------------------------------
  // Search and preview
  // ---------------------------------------------------------------------------

  /** `filteredCampaigns`: the campaigns whose name contains the term, ignoring case. */
  function FilteredCampaigns(campaigns: seq<Campaign>, term: string): (r: seq<Campaign>)
    ensures forall i :: 0 <= i < |r| ==> r[i] in campaigns && Text.IncludesIgnoringCase(r[i].name, term)
    ensures forall i :: 0 <= i < |campaigns| && Text.IncludesIgnoringCase(campaigns[i].name, term) ==>
               campaigns[i] in r
  {
    Seqs.Filter(campaigns, (c: Campaign) => Text.IncludesIgnoringCase(c.name, term))
  }

  /** An empty search shows every campaign, in order. */
  lemma EmptySearchShowsAll(campaigns: seq<Campaign>)
    ensures FilteredCampaigns(campaigns, "") == campaigns
  {
    forall i | 0 <= i < |campaigns| ensures Text.IncludesIgnoringCase(campaigns[i].name, "") {
      Text.EmptyTermMatches(campaigns[i].name);
    }
    Seqs.FilterKeepsAll(campaigns, (c: Campaign) => Text.IncludesIgnoringCase(c.name, ""));
  }

  /** The longest message a card shows in full. */
  const PreviewLength: nat := 100

  /** The card's preview of a message: the first 100 characters and "..." when longer. */
  function Preview(message: string): (r: string)
    ensures |message| <= PreviewLength ==> r == message
    ensures |message| > PreviewLength ==>
      |r| == PreviewLength + 3 && r[..PreviewLength] == message[..PreviewLength]
      && r[PreviewLength..] == "..."
  {
    if |message| > PreviewLength then message[..PreviewLength] + "..." else message
  }

  /** Every preview is a prefix of its message, possibly followed by "...", and never longer
      than 103 characters. */
  lemma PreviewIsBoundedPrefix(message: string)
    ensures var r := Preview(message); var k := Seqs.Min(|message|, PreviewLength);
      |r| <= PreviewLength + 3 && r[..k] == message[..k]
      && (r == message || r == message[..k] + "...")
  {
  }
}
