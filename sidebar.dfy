/** The navigation sidebar (src/components/AppSidebar.tsx): the constant
    menu groups, the rule that marks the item whose id is the active view,
    and the theme switch, whose `isDark` flag is read from the page once on
    mount and then flipped, written to the root element's class and saved to
    local storage on every click. */
module Sidebar {
  import opened Optional
  import opened App

  datatype MenuItem = MenuItem(id: string, title: string)

  datatype MenuGroup = MenuGroup(title: string, items: seq<MenuItem>)

  /** `menuItems`, the four groups in display order. */
  const MenuGroups: seq<MenuGroup> := [
    MenuGroup("Overview", [MenuItem("dashboard", "Dashboard")]),
    MenuGroup("Operations", [
      MenuItem("stations", "Stations"),
      MenuItem("chargers", "Chargers"),
      MenuItem("users", "Users")]),
    MenuGroup("Business", [
      MenuItem("payments", "Payments"),
      MenuItem("pricing", "Pricing"),
      MenuItem("platform-fees", "Platform Fees"),
      MenuItem("cpo", "CPO Integration"),
      MenuItem("analytics", "Analytics")]),
    MenuGroup("Support", [
      MenuItem("support", "Customer Support"),
      MenuItem("settings", "Settings")])
  ]

  /** The items of the groups, in the order the sidebar lists them. */
  function Flatten(groups: seq<MenuGroup>): (items: seq<MenuItem>)
    ensures forall g, item :: g in groups && item in g.items ==> item in items
    ensures forall item :: item in items ==> exists g :: g in groups && item in g.items
  {
    if groups == [] then [] else groups[0].items + Flatten(groups[1..])
  }

  /** Every item the sidebar shows. */
  function AllItems(): (items: seq<MenuItem>)
    ensures |items| == 11
  {
    Flatten(MenuGroups)
  }

  function Ids(items: seq<MenuItem>): (ids: seq<string>)
    ensures |ids| == |items|
    ensures forall i :: 0 <= i < |items| ==> ids[i] == items[i].id
  {
    if items == [] then [] else [items[0].id] + Ids(items[1..])
  }

  predicate Distinct(ids: seq<string>) {
    forall i, j :: 0 <= i < j < |ids| ==> ids[i] != ids[j]
  }

  /** The ids in the order the sidebar lists them. */
  const MenuIds: seq<string> := ["dashboard", "stations", "chargers", "users",
    "payments", "pricing", "platform-fees", "cpo", "analytics", "support", "settings"]

  lemma AllItemIds()
    ensures Ids(AllItems()) == MenuIds
  {
    assert AllItems() == MenuGroups[0].items + MenuGroups[1].items + MenuGroups[2].items + MenuGroups[3].items;
  }

  /** Every view has an item whose id is its key. */
  lemma EveryViewHasAnItem(v: View)
    ensures Key(v) in MenuIds
  {
    match v
    case DashboardOverview => assert MenuIds[0] == Key(v);
    case StationManagement => assert MenuIds[1] == Key(v);
    case ChargerManagement => assert MenuIds[2] == Key(v);
    case UserManagement => assert MenuIds[3] == Key(v);
    case PaymentsWallets => assert MenuIds[4] == Key(v);
    case PricingTariffs => assert MenuIds[5] == Key(v);
    case PlatformFeeManagement => assert MenuIds[6] == Key(v);
    case CPOIntegration => assert MenuIds[7] == Key(v);
    case Analytics => assert MenuIds[8] == Key(v);
    case CustomerSupport => assert MenuIds[9] == Key(v);
    case Settings => assert MenuIds[10] == Key(v);
  }

  /** The eleven ids, pairwise distinct, are exactly the router's keys: each
      item opens its own view and every view has an item. */
  lemma MenuIdsAreRouterKeys()
    ensures Ids(AllItems()) == MenuIds
    ensures Distinct(MenuIds)
    ensures forall id :: id in MenuIds <==> id in RouterKeys
    ensures forall v: View :: Key(v) in MenuIds
  {
    AllItemIds();
    DistinctByPosition(MenuIds);
    forall v: View ensures Key(v) in MenuIds {
      EveryViewHasAnItem(v);
    }
    forall id | id in RouterKeys ensures id in MenuIds {
      RenderKeyRoundTrip(RenderActiveView(id));
      EveryViewHasAnItem(RenderActiveView(id));
    }
  }

  /** The position of an id in the menu, -1 for any other string. */
  function Position(id: string): (k: int)
    ensures -1 <= k < 11
  {
    match id
    case "dashboard" => 0
    case "stations" => 1
    case "chargers" => 2
    case "users" => 3
    case "payments" => 4
    case "pricing" => 5
    case "platform-fees" => 6
    case "cpo" => 7
    case "analytics" => 8
    case "support" => 9
    case "settings" => 10
    case _ => -1
  }

  /** Each id sits at its own position, so no two positions hold the same
      id. */
  lemma DistinctByPosition(ids: seq<string>)
    requires ids == ["dashboard", "stations", "chargers", "users",
      "payments", "pricing", "platform-fees", "cpo", "analytics", "support", "settings"]
    ensures Distinct(ids)
  {
    assert Position(ids[0]) == 0 && Position(ids[1]) == 1 && Position(ids[2]) == 2;
    assert Position(ids[3]) == 3 && Position(ids[4]) == 4 && Position(ids[5]) == 5;
    assert Position(ids[6]) == 6 && Position(ids[7]) == 7 && Position(ids[8]) == 8;
    assert Position(ids[9]) == 9 && Position(ids[10]) == 10;
    forall i, j | 0 <= i < j < |ids| ensures ids[i] != ids[j] {
      assert Position(ids[i]) == i && Position(ids[j]) == j;
    }
  }

  /** `isActive={activeView === item.id}`. */
  predicate IsActive(activeView: string, item: MenuItem) {
    activeView == item.id
  }

  /** After a click on an item (`setActiveView(item.id)`), that item and no
      other is marked active, and the router shows the item's view. */
  lemma ClickActivatesOnlyThatItem(i: nat)
    requires i < |AllItems()|
    ensures forall j :: 0 <= j < |AllItems()| ==> (IsActive(AllItems()[i].id, AllItems()[j]) <==> j == i)
    ensures Key(RenderActiveView(AllItems()[i].id)) == AllItems()[i].id
  {
    MenuIdsAreRouterKeys();
    var ids := Ids(AllItems());
    forall j | 0 <= j < |AllItems()| && j != i ensures !IsActive(AllItems()[i].id, AllItems()[j]) {
      assert ids[i] == AllItems()[i].id && ids[j] == AllItems()[j].id;
    }
  }

  /** An active view that no item has — an unknown key — marks nothing
      active, and the router then shows the dashboard. */
  lemma UnknownViewMarksNothing(activeView: string)
    requires activeView !in RouterKeys
    ensures forall item :: item in AllItems() ==> !IsActive(activeView, item)
    ensures RenderActiveView(activeView) == DashboardOverview
  {
    MenuIdsAreRouterKeys();
  }

  /** The value `toggleTheme` saves for the new flag. */
  function StoredTheme(isDark: bool): (theme: string)
    ensures theme == "dark" || theme == "light"
    ensures theme == "dark" <==> isDark
  {
    if isDark then "dark" else "light"
  }

  /** What the toggle saves is what the next startup restores, whatever the
      system prefers. */
  lemma StoredThemeSurvivesReload(isDark: bool, systemPrefersDark: bool)
    ensures StartupWantsDark(Some(StoredTheme(isDark)), systemPrefersDark) == isDark
  {
    SavedThemeOverridesSystem(systemPrefersDark);
  }

  /** The sidebar component's `isDark` state. */
  class ThemeSwitch {
    var isDark: bool

    /** `useState(false)`. */
    constructor ()
      ensures !isDark
    {
      isDark := false;
    }

    /** The mount effect reads the flag from the page. */
    method Mount(b: Browser)
      modifies this
      ensures isDark == b.darkClass
    {
      isDark := b.darkClass;
    }

    /** `toggleTheme`: flip the flag, then add the class and save 'dark', or
        remove it and save 'light'. */
    method ToggleTheme(b: Browser)
      modifies this, b
      ensures isDark == !old(isDark)
      ensures b.darkClass == isDark
      ensures b.savedTheme == Some(StoredTheme(isDark))
    {
      var newTheme := !isDark;
      isDark := newTheme;
      if newTheme {
        b.darkClass := true;
        b.savedTheme := Some("dark");
      } else {
        b.darkClass := false;
        b.savedTheme := Some("light");
      }
    }

    /** Two clicks restore the flag; the page is back where it was when the
        flag agreed with it, and the storage holds the final value. */
    method ToggleTwice(b: Browser)
      modifies this, b
      ensures isDark == old(isDark)
      ensures b.darkClass == isDark
      ensures old(b.darkClass) == old(isDark) ==> b.darkClass == old(b.darkClass)
      ensures b.savedTheme == Some(StoredTheme(old(isDark)))
    {
      ToggleTheme(b);
      ToggleTheme(b);
    }
  }

  /** Page start-up in the intended order: the shell decides the theme, then
      the sidebar reads it, so the switch agrees with the page from the
      start and every click changes the page. */
  method StartPage(b: Browser) returns (s: ThemeSwitch)
    modifies b
    ensures b.darkClass == (old(b.darkClass) || StartupWantsDark(b.savedTheme, b.systemPrefersDark))
    ensures b.savedTheme == old(b.savedTheme)
    ensures s.isDark == b.darkClass
    ensures fresh(s)
  {
    ApplyStartupTheme(b);
    s := new ThemeSwitch();
    s.Mount(b);
  }

  /** Page start-up as React runs the two mount effects: a child's effect
      before its parent's, so the sidebar reads the root element before the
      shell has added the class. */
  method StartPageAsWritten(b: Browser) returns (s: ThemeSwitch)
    modifies b
    ensures b.darkClass == (old(b.darkClass) || StartupWantsDark(b.savedTheme, b.systemPrefersDark))
    ensures b.savedTheme == old(b.savedTheme)
    ensures s.isDark == old(b.darkClass)
    ensures fresh(s)
  {
    s := new ThemeSwitch();
    s.Mount(b);
    ApplyStartupTheme(b);
  }

  /** With 'dark' saved and a page that starts without the class, the
      sidebar as written starts with `isDark` false on a dark page, and the
      first click leaves the page dark: it changes nothing the user sees. */
  method FirstToggleAsWritten() returns (darkAfterStart: bool, switchDark: bool, darkAfterClick: bool)
    ensures darkAfterStart && !switchDark && darkAfterClick
  {
    var b := new Browser(false, Some("dark"), false);
    var s := StartPageAsWritten(b);
    darkAfterStart := b.darkClass;
    switchDark := s.isDark;
    s.ToggleTheme(b);
    darkAfterClick := b.darkClass;
  }

  /** In the intended order the same page starts dark with the switch set,
      and the first click turns it light. */
  method FirstToggle() returns (darkAfterStart: bool, switchDark: bool, darkAfterClick: bool)
    ensures darkAfterStart && switchDark && !darkAfterClick
  {
    var b := new Browser(false, Some("dark"), false);
    var s := StartPage(b);
    darkAfterStart := b.darkClass;
    switchDark := s.isDark;
    s.ToggleTheme(b);
    darkAfterClick := b.darkClass;
  }
}
