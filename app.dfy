/** The application shell (src/App.tsx): the `activeView` key, the router
    that turns a key into the view it renders (the dashboard for any key it
    does not know), and the startup effect that decides from the saved theme
    and the system preference whether the page starts dark. The browser
    state the shell and the sidebar share — the `dark` class of the root
    element and the `theme` entry of local storage — is the `Browser`
    class. */
module App {
  import opened Optional
  import opened Display

  /** The eleven views the router can render. */
  datatype View =
    | DashboardOverview
    | StationManagement
    | ChargerManagement
    | UserManagement
    | Analytics
    | PaymentsWallets
    | CPOIntegration
    | PricingTariffs
    | PlatformFeeManagement
    | CustomerSupport
    | Settings

  /** The keys the router's `switch` names. */
  const RouterKeys: set<string> := {
    "dashboard", "stations", "chargers", "users", "analytics", "payments",
    "cpo", "pricing", "platform-fees", "support", "settings"
  }

  /** The key that selects a view. */
  function Key(v: View): (k: string)
    ensures k in RouterKeys
  {
    match v
    case DashboardOverview => "dashboard"
    case StationManagement => "stations"
    case ChargerManagement => "chargers"
    case UserManagement => "users"
    case Analytics => "analytics"
    case PaymentsWallets => "payments"
    case CPOIntegration => "cpo"
    case PricingTariffs => "pricing"
    case PlatformFeeManagement => "platform-fees"
    case CustomerSupport => "support"
    case Settings => "settings"
  }

  /** `renderActiveView`: a known key renders its own view, any other key the
      dashboard. */
  function RenderActiveView(activeView: string): (v: View)
    ensures activeView in RouterKeys ==> Key(v) == activeView
    ensures activeView !in RouterKeys ==> v == DashboardOverview
  {
    match activeView
    case "dashboard" => DashboardOverview
    case "stations" => StationManagement
    case "chargers" => ChargerManagement
    case "users" => UserManagement
    case "analytics" => Analytics
    case "payments" => PaymentsWallets
    case "cpo" => CPOIntegration
    case "pricing" => PricingTariffs
    case "platform-fees" => PlatformFeeManagement
    case "support" => CustomerSupport
    case "settings" => Settings
    case _ => DashboardOverview
  }

  /** Every view is reachable: rendering a view's key gives that view back,
      so no two views share a key. */
  lemma RenderKeyRoundTrip(v: View)
    ensures RenderActiveView(Key(v)) == v
  {
  }

  lemma KeyInjective(v: View, w: View)
    requires Key(v) == Key(w)
    ensures v == w
  {
    RenderKeyRoundTrip(v);
    RenderKeyRoundTrip(w);
  }

  /** The dashboard is shown for its own key and for every unknown key, and
      for no other key. */
  lemma DashboardIsTheDefault(activeView: string)
    ensures RenderActiveView(activeView) == DashboardOverview
            <==> activeView == "dashboard" || activeView !in RouterKeys
  {
  }

  /** The view key the application starts with. */
  const InitialView: string := "dashboard"

  /** The `activeView` state of the application. */
  class AppShell {
    var activeView: string

    constructor ()
      ensures activeView == InitialView
      ensures RenderActiveView(activeView) == DashboardOverview
    {
      activeView := InitialView;
    }

    /** The view on screen. */
    function Rendered(): (v: View)
      reads this
      ensures activeView in RouterKeys ==> Key(v) == activeView
    {
      RenderActiveView(activeView)
    }

    /** `setActiveView`, the callback the sidebar receives. */
    method SetActiveView(view: string)
      modifies this
      ensures activeView == view
      ensures view in RouterKeys ==> Key(Rendered()) == view
    {
      activeView := view;
    }
  }

  /** The page state outside React: whether the root element carries the
      `dark` class, the `theme` entry of local storage (`None` for a missing
      entry) and whether the system prefers a dark scheme. */
  class Browser {
    var darkClass: bool
    var savedTheme: Option<string>
    const systemPrefersDark: bool

    constructor (darkClass: bool, savedTheme: Option<string>, systemPrefersDark: bool)
      ensures this.darkClass == darkClass && this.savedTheme == savedTheme
      ensures this.systemPrefersDark == systemPrefersDark
    {
      this.darkClass := darkClass;
      this.savedTheme := savedTheme;
      this.systemPrefersDark := systemPrefersDark;
    }
  }

  /** The startup condition: the saved theme is 'dark', or nothing (or an
      empty string) is saved and the system prefers dark. */
  function StartupWantsDark(savedTheme: Option<string>, systemPrefersDark: bool): (dark: bool)
    ensures savedTheme == Some("dark") ==> dark
    ensures StrTruthy(savedTheme) && savedTheme != Some("dark") ==> !dark
    ensures !StrTruthy(savedTheme) ==> dark == systemPrefersDark
  {
    savedTheme == Some("dark") || (!StrTruthy(savedTheme) && systemPrefersDark)
  }

  /** A saved 'light' keeps the page light whatever the system prefers, and
      a saved 'dark' makes it dark whatever the system prefers. */
  lemma SavedThemeOverridesSystem(systemPrefersDark: bool)
    ensures !StartupWantsDark(Some("light"), systemPrefersDark)
    ensures StartupWantsDark(Some("dark"), systemPrefersDark)
  {
    assert Some("light") != Some("dark") by { assert "light"[0] != "dark"[0]; }
  }

  /** The startup effect: it adds the class when `StartupWantsDark` holds
      and otherwise leaves the page as it is; it never removes the class and
      never writes the storage. */
  method ApplyStartupTheme(b: Browser)
    modifies b
    ensures b.darkClass == (old(b.darkClass) || StartupWantsDark(b.savedTheme, b.systemPrefersDark))
    ensures b.savedTheme == old(b.savedTheme)
    ensures old(b.darkClass) ==> b.darkClass
  {
    if StartupWantsDark(b.savedTheme, b.systemPrefersDark) {
      b.darkClass := true;
    }
  }
}
