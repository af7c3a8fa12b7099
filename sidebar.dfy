/** The sidebar: the menu of views, the highlighted entry, the language button and the
    overlay that closes the sidebar on small screens. Its handlers only assign store
    fields. */
module Sidebar {
  import opened Types
  import Seqs
  import AppStore
  import CommandTable

  /** The menu's view ids, top to bottom. */
  const MenuIds: seq<string> := [
    "dashboard", "customers", "products", "billing", "marketing", "messaging", "payments",
    "reports", "notifications", "profile", "settings" ]

  /** The other language: the language button's effect. */
  function Toggled(lang: Language): (r: Language)
    ensures r != lang
  {
    if lang == En then Hi else En
  }

  /** Pressing the language button twice gives back the language it started with. */
  lemma ToggleTwiceRestores(lang: Language)
    ensures Toggled(Toggled(lang)) == lang
  {
  }

  /** `handleTabChange(tab)`: the view becomes `tab` and the sidebar closes; nothing else in
      the store changes. */
  method HandleTabChange(store: AppStore.Store, tab: string)
    modifies store
    ensures store.State() == old(store.State()).(activeTab := tab, sidebarOpen := false)
  {
    store.SetActiveTab(tab);
    store.SetSidebarOpen(false);
  }

  /** `toggleLanguage()`: English becomes Hindi and Hindi becomes English. */
  method ToggleLanguage(store: AppStore.Store)
    modifies store
    ensures store.State() == old(store.State()).(language := Toggled(old(store.language)))
  {
    store.SetLanguage(if store.language == En then Hi else En);
  }

  /** Clicking the overlay closes the sidebar. */
  method CloseOverlay(store: AppStore.Store)
    modifies store
    ensures store.State() == old(store.State()).(sidebarOpen := false)
  {
    store.SetSidebarOpen(false);
  }

  /** An entry is highlighted when the active view is its id. */
  predicate IsActive(activeTab: string, id: string)
  {
    activeTab == id
  }

  /** No id appears twice in the menu. */
  lemma MenuIdsDistinct()
    ensures Seqs.Distinct(MenuIds)
  {
  }

  /** After a menu click exactly one entry is highlighted, the one clicked; a view the menu
      does not list highlights none. */
  lemma OneEntryHighlighted(k: nat, activeTab: string)
    ensures k < |MenuIds| && activeTab == MenuIds[k] ==>
      forall j :: 0 <= j < |MenuIds| ==> (IsActive(activeTab, MenuIds[j]) <==> j == k)
    ensures activeTab !in MenuIds ==>
      forall j :: 0 <= j < |MenuIds| ==> !IsActive(activeTab, MenuIds[j])
  {
    MenuIdsDistinct();
  }

  /** The menu leads only to views the application renders, but three rendered views have no
      entry: delivery, requirements and leads are reached only by voice commands, which name
      them. */
  lemma VoiceOnlyViews()
    ensures forall id :: id in MenuIds ==> id in CommandTable.RenderedTabs
    ensures "delivery" !in MenuIds && "requirements" !in MenuIds && "leads" !in MenuIds
    ensures var t := CommandTable.Commands(En); var n := |t|;
      t[n - 4].1 == "delivery" && t[n - 2].1 == "leads" && t[n - 1].1 == "requirements"
  {
    var t := CommandTable.Commands(En);
    var front := CommandTable.EnNavigation + CommandTable.EnCustomers + CommandTable.EnProducts
      + CommandTable.EnBilling + CommandTable.EnPayments + CommandTable.EnMarketing
      + CommandTable.EnMessaging + CommandTable.EnReports + CommandTable.EnSettings;
    assert t == front + CommandTable.EnOthers;
    assert t[|t| - 4] == CommandTable.EnOthers[2];
    assert t[|t| - 2] == CommandTable.EnOthers[4];
    assert t[|t| - 1] == CommandTable.EnOthers[5];
  }
}
