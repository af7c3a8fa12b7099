/** The WhatsApp leads view: adding a lead by hand, the status buttons on each card, the
    relative time and priority colour computed from a lead's age, the search box and the card
    heading. The age is the clock reading minus the lead's timestamp, in milliseconds; the
    clock is a parameter. */
module Leads {
  import opened Wrappers
  import opened Types
  import Seqs
  import Text
  import AppStore

  // ---------------------------------------------------------------------------
  // handleCreateLead
  // ---------------------------------------------------------------------------

  /** The add-lead modal: open or not, and the three typed fields. */
  datatype Form = Form(showCreateModal: bool, customerPhone: string, customerName: string, message: string)

  const BlankForm: Form := Form(false, "", "", "")

  /** The lead the handler records: the typed fields, status New, and the clock reading as
      its timestamp. The store stamps its id. */
  function NewLead(form: Form, timestamp: string): (l: WhatsAppLead)
    ensures l.customerPhone == form.customerPhone && l.message == form.message
    ensures l.customerName == Some(form.customerName) && l.timestamp == timestamp
    ensures l.status == LeadStatus.New && l.assignedTo.None? && l.followUpDate.None?
  {
    WhatsAppLead("", form.customerPhone, Some(form.customerName), form.message, timestamp,
      LeadStatus.New, None, None)
  }

  /** `handleCreateLead()`: an empty phone or message does nothing; otherwise one new lead is
      recorded and the modal closes with blank fields. */
  method HandleCreateLead(store: AppStore.Store, form: Form, timestamp: string, at: AppStore.Stamp)
    returns (next: Form)
    modifies store
    ensures form.customerPhone == "" || form.message == "" ==>
      store.State() == old(store.State()) && next == form
    ensures form.customerPhone != "" && form.message != "" ==>
      next == BlankForm
      && store.State() == old(store.State()).(whatsappLeads := old(store.whatsappLeads)
           + [NewLead(form, timestamp).(id := "LEAD" + at.millis)])
  {
    if form.customerPhone == "" || form.message == "" {
      return form;
    }
    store.AddWhatsAppLead(NewLead(form, timestamp), at);
    next := BlankForm;
  }

  // ---------------------------------------------------------------------------
  // Status buttons
  // ---------------------------------------------------------------------------

  /** The statuses a card's buttons lead to: New offers Responded, Responded offers
      Converted, and every status but Closed offers Closed. */
  function Buttons(s: LeadStatus): set<LeadStatus>
  {
    match s
    case New => {LeadStatus.Responded, LeadStatus.Closed}
    case Responded => {LeadStatus.Converted, LeadStatus.Closed}
    case Converted => {LeadStatus.Closed}
    case Closed => {}
  }

  /** Position of a status along a lead's life. */
  function Rank(s: LeadStatus): nat
  {
    match s
    case New => 0
    case Responded => 1
    case Converted => 2
    case Closed => 3
  }

  /** Every button moves a lead forward; none leads back to New; Closed offers nothing, and
      every other status can be closed. */
  lemma ButtonsMoveForward(s: LeadStatus, t: LeadStatus)
    ensures t in Buttons(s) ==> Rank(t) > Rank(s) && t != LeadStatus.New
    ensures Buttons(LeadStatus.Closed) == {}
    ensures s != LeadStatus.Closed ==> LeadStatus.Closed in Buttons(s)
  {
  }

  /** `presses` is a run of clicks each of which the card offered at the time. */
  predicate OfferedRun(s: LeadStatus, presses: seq<LeadStatus>)
    decreases |presses|
  {
    presses == [] || (presses[0] in Buttons(s) && OfferedRun(presses[0], presses[1..]))
  }

  /** No lead can be clicked through more than three status changes, and a run of clicks never
      returns to a status it has left. */
  lemma {:induction false} RunsAreShort(s: LeadStatus, presses: seq<LeadStatus>)
    requires OfferedRun(s, presses)
    ensures |presses| + Rank(s) <= 3
    ensures forall i :: 0 <= i < |presses| ==> Rank(presses[i]) > Rank(s)
    decreases |presses|
  {
    if presses != [] {
      ButtonsMoveForward(s, presses[0]);
      RunsAreShort(presses[0], presses[1..]);
      assert forall i :: 1 <= i < |presses| ==> presses[i] == presses[1..][i - 1];
    }
  }

  /** `updateStatus(id, newStatus)`: the lead with that id takes the new status, every other
      lead and every other field of the store are unchanged. */
  method UpdateStatus(store: AppStore.Store, id: string, newStatus: LeadStatus)
    modifies store
    ensures store.State() == old(store.State()).(whatsappLeads := store.whatsappLeads)
    ensures |store.whatsappLeads| == |old(store.whatsappLeads)|
    ensures forall i :: 0 <= i < |old(store.whatsappLeads)| ==>
      store.whatsappLeads[i]
        == if old(store.whatsappLeads)[i].id == id
           then old(store.whatsappLeads)[i].(status := newStatus)
           else old(store.whatsappLeads)[i]
  {
    store.UpdateWhatsAppLead(id, LeadStatusPatch(newStatus));
  }

  // ---------------------------------------------------------------------------
  // formatTime and getPriorityColor
  // ---------------------------------------------------------------------------

  const MillisPerMinute: nat := 60000
  const MillisPerHour: nat := 3600000

  /** The bucket `formatTime` puts an age in, with the number it shows. */
  datatype Age = JustNow | MinutesAgo(minutes: nat) | HoursAgo(hours: nat) | DaysAgo(days: nat)

  /** `Math.floor(diff / 60000)`, bucketed: under a minute, under an hour, under a day, or
      days. A timestamp in the future counts as just now. */
  function AgeOf(ageMillis: int): (a: Age)
    ensures var m := ageMillis / MillisPerMinute;
      (a.JustNow? <==> m < 1)
      && (a.MinutesAgo? ==> a.minutes == m && 1 <= a.minutes < 60)
      && (a.HoursAgo? ==> 1 <= a.hours < 24 && a.hours * 60 <= m < (a.hours + 1) * 60)
      && (a.DaysAgo? ==> 1 <= a.days && a.days * 1440 <= m < (a.days + 1) * 1440)
  {
    var m := ageMillis / MillisPerMinute;
    if m < 1 then JustNow
    else if m < 60 then MinutesAgo(m)
    else if m < 1440 then HoursAgo(m / 60)
    else DaysAgo(m / 1440)
  }

  /** The words after the number, in the chosen language. */
  function UnitLabel(a: Age, lang: Language): string
  {
    match a
    case JustNow => if lang == En then "Just now" else "अभी"
    case MinutesAgo(_) => if lang == En then "min ago" else "मिनट पहले"
    case HoursAgo(_) => if lang == En then "hr ago" else "घंटे पहले"
    case DaysAgo(_) => if lang == En then "days ago" else "दिन पहले"
  }

  /** The number `formatTime` shows for a bucket. */
  function Shown(a: Age): nat
  {
    match a
    case JustNow => 0
    case MinutesAgo(n) => n
    case HoursAgo(n) => n
    case DaysAgo(n) => n
  }

  /** `formatTime(timestamp)`: "Just now", or the number, a space and its unit. */
  function FormatTime(ageMillis: int, lang: Language): string
  {
    var a := AgeOf(ageMillis);
    if a.JustNow? then UnitLabel(a, lang)
    else Text.NatToString(Shown(a)) + " " + UnitLabel(a, lang)
  }

  /** What is displayed can be read back: after "Just now" nothing, otherwise the leading
      digits spell the bucket's count, which is at least 1, and a space follows them. */
  lemma FormatTimeReadsBack(ageMillis: int, lang: Language)
    ensures var a := AgeOf(ageMillis); var r := FormatTime(ageMillis, lang);
      var k := |Text.NatToString(Shown(a))|;
      !a.JustNow? ==>
        Shown(a) >= 1 && k < |r| && r[k] == ' '
        && (forall i :: 0 <= i < k ==> '0' <= r[i] <= '9')
        && Text.ParseDigits(r[..k]) == Shown(a)
  {
    var a := AgeOf(ageMillis);
    if !a.JustNow? {
      var digits := Text.NatToString(Shown(a));
      var r := FormatTime(ageMillis, lang);
      assert r[..|digits|] == digits;
      Text.NatToStringRoundTrip(Shown(a));
    }
  }

  /** The card's left border: red within the first hour, orange within a day, gray after. */
  datatype Priority = High | Medium | Low

  /** `getPriorityColor(timestamp)` on `Math.floor(diff / 3600000)` hours. */
  function PriorityOf(ageMillis: int): (p: Priority)
    ensures var h := ageMillis / MillisPerHour;
      (p == High <==> h < 1) && (p == Medium <==> 1 <= h < 24) && (p == Low <==> h >= 24)
  {
    var h := ageMillis / MillisPerHour;
    if h < 1 then High else if h < 24 then Medium else Low
  }

  function BorderClass(p: Priority): string
  {
    match p
    case High => "border-l-red-500"
    case Medium => "border-l-orange-500"
    case Low => "border-l-gray-300"
  }

  function Urgency(p: Priority): nat
  {
    match p
    case High => 2
    case Medium => 1
    case Low => 0
  }

  /** An older lead never has a higher priority than a newer one. */
  lemma PriorityFallsWithAge(older: int, newer: int)
    requires newer <= older
    ensures Urgency(PriorityOf(older)) <= Urgency(PriorityOf(newer))
  {
    assert newer / MillisPerHour <= older / MillisPerHour by {
      DivMonotone(newer, older, MillisPerHour);
    }
  }

  lemma DivMonotone(a: int, b: int, d: nat)
    requires a <= b && d > 0
    ensures a / d <= b / d
  {
    MulMonotone(a / d, b / d + 1, d);
  }

  lemma MulMonotone(x: int, y: int, d: nat)
    ensures x >= y ==> x * d >= y * d
  {
    if x >= y {
      assert x * d - y * d == (x - y) * d;
    }
  }

  /** The red border and the relative time agree: a lead is high priority exactly when the
      card says "Just now" or a number of minutes. */
  lemma HighPriorityIsMinutesOld(ageMillis: int)
    ensures PriorityOf(ageMillis) == High
      <==> AgeOf(ageMillis).JustNow? || AgeOf(ageMillis).MinutesAgo?
  {
    var m := ageMillis / MillisPerMinute;
    var h := ageMillis / MillisPerHour;
    assert h == m / 60 by {
      assert ageMillis == m * MillisPerMinute + ageMillis % MillisPerMinute;
      assert ageMillis == (m / 60 * 60 + m % 60) * MillisPerMinute + ageMillis % MillisPerMinute;
      assert ageMillis == m / 60 * MillisPerHour + (m % 60 * MillisPerMinute + ageMillis % MillisPerMinute);
    }
  }

  // ---------------------------------------------------------------------------
  // filteredLeads
  // ---------------------------------------------------------------------------

  /** A lead is shown when its name (if any) or its message contains the term ignoring case,
      or its phone contains the term as typed. */
  predicate Matches(term: string, lead: WhatsAppLead)
  {
    (lead.customerName.Some? && Text.IncludesIgnoringCase(lead.customerName.value, term))
    || Text.Includes(lead.customerPhone, term)
    || Text.IncludesIgnoringCase(lead.message, term)
  }

  /** `filteredLeads`. */
  function FilteredLeads(leads: seq<WhatsAppLead>, term: string): (r: seq<WhatsAppLead>)
    ensures forall i :: 0 <= i < |r| ==> r[i] in leads && Matches(term, r[i])
    ensures forall i :: 0 <= i < |leads| && Matches(term, leads[i]) ==> leads[i] in r
  {
    Seqs.Filter(leads, (l: WhatsAppLead) => Matches(term, l))
  }

  /** An empty search shows every lead, in order, named or not. */
  lemma EmptySearchShowsAll(leads: seq<WhatsAppLead>)
    ensures FilteredLeads(leads, "") == leads
  {
    forall i | 0 <= i < |leads| ensures Matches("", leads[i]) {
      Text.EmptyTermMatches(leads[i].message);
    }
    Seqs.FilterKeepsAll(leads, (l: WhatsAppLead) => Matches("", l));
  }

  // ---------------------------------------------------------------------------
  // The card heading
  // ---------------------------------------------------------------------------

  const UnknownEn: string := "Unknown Customer"
  const UnknownHi: string := "अज्ञात ग्राहक"

  /** A JavaScript string is truthy when it is present and not empty. */
  predicate Truthy(name: Option<string>)
  {
    name.Some? && name.value != ""
  }

  /** The heading as written: `name || language === 'en' ? 'Unknown Customer' : …` groups as
      `(name || language === 'en') ? … : …`. */
  function HeadingAsWritten(name: Option<string>, lang: Language): (r: string)
    ensures r == UnknownEn || r == UnknownHi
  {
    if Truthy(name) || lang == En then UnknownEn else UnknownHi
  }

  /** The name is never shown: a lead named "Ramesh" is headed "Unknown Customer", in either
      language. */
  lemma HeadingAsWrittenHidesName(lang: Language)
    ensures HeadingAsWritten(Some("Ramesh"), lang) == UnknownEn
    ensures HeadingAsWritten(Some("Ramesh"), lang) != "Ramesh"
  {
  }

  /** The heading as intended: the name when there is one, otherwise the placeholder in the
      current language. */
  function Heading(name: Option<string>, lang: Language): (r: string)
    ensures Truthy(name) ==> r == name.value
    ensures !Truthy(name) ==> r == (if lang == En then UnknownEn else UnknownHi)
  {
    if Truthy(name) then name.value else if lang == En then UnknownEn else UnknownHi
  }

  /** The two agree exactly on unnamed leads. */
  lemma HeadingsAgreeOnUnnamed(name: Option<string>, lang: Language)
    ensures !Truthy(name) ==> HeadingAsWritten(name, lang) == Heading(name, lang)
    ensures Truthy(name) && name.value != UnknownEn ==> HeadingAsWritten(name, lang) != Heading(name, lang)
  {
  }
}
