/**
 * App.tsx: the session gate, the startup load of the stored profile, the
 * navigation between the fourteen screens, the theme, and the profile
 * handlers the screens call back into.
 */
module Session {
  import opened Wrappers
  import opened Types
  import opened Records

  /** The screens `renderContent` can show. */
  datatype Page =
    | HomePage | JusticePage | StopNciiPage | HelplinesPage | AssistantPage
    | WellnessPage | LearningPage | ImageInsightPage | VideoPage | DefensePage
    | AwarenessPage | SupportPage | TrackerPage | SettingsPage

  /** The ids of `NAV_ITEMS`, in menu order. */
  const NavIds: seq<string> := [
    "home", "justice", "stopncii", "helplines", "assistant", "wellness", "learning",
    "image-insight", "video", "defense", "awareness", "support", "tracker", "settings"
  ]

  /** The navigation id of each screen. */
  function PageId(p: Page): (id: string)
    ensures id in NavIds
  {
    match p
    case HomePage => "home"
    case JusticePage => "justice"
    case StopNciiPage => "stopncii"
    case HelplinesPage => "helplines"
    case AssistantPage => "assistant"
    case WellnessPage => "wellness"
    case LearningPage => "learning"
    case ImageInsightPage => "image-insight"
    case VideoPage => "video"
    case DefensePage => "defense"
    case AwarenessPage => "awareness"
    case SupportPage => "support"
    case TrackerPage => "tracker"
    case SettingsPage => "settings"
  }

  /** The `switch (activeTab)` of `renderContent`: a known id selects its screen, anything else the home screen. */
  function Route(tab: string): (p: Page)
    ensures tab in NavIds ==> PageId(p) == tab
    ensures tab !in NavIds ==> p == HomePage
  {
    match tab
    case "home" => HomePage
    case "justice" => JusticePage
    case "stopncii" => StopNciiPage
    case "helplines" => HelplinesPage
    case "assistant" => AssistantPage
    case "wellness" => WellnessPage
    case "learning" => LearningPage
    case "image-insight" => ImageInsightPage
    case "video" => VideoPage
    case "defense" => DefensePage
    case "awareness" => AwarenessPage
    case "tracker" => TrackerPage
    case "support" => SupportPage
    case "settings" => SettingsPage
    case _ => HomePage
  }

  /** Every screen is reached by its own id, so no two screens share one. */
  lemma RouteRoundTrip(p: Page)
    ensures Route(PageId(p)) == p
  {
    match p
    case HomePage =>
    case JusticePage =>
    case StopNciiPage =>
    case HelplinesPage =>
    case AssistantPage =>
    case WellnessPage =>
    case LearningPage =>
    case ImageInsightPage =>
    case VideoPage =>
    case DefensePage =>
    case AwarenessPage =>
    case SupportPage =>
    case TrackerPage =>
    case SettingsPage =>
  }

  /** `renderContent`: nothing without a user, otherwise the screen the active tab selects. */
  function RenderContent(user: Option<Profile>, tab: string): (r: Option<Page>)
    ensures r.None? <==> user.None?
    ensures user.Some? && tab in NavIds ==> PageId(r.value) == tab
    ensures user.Some? && tab !in NavIds ==> r == Some(HomePage)
  {
    if user.None? then None else Some(Route(tab))
  }

  /**
   * The initial `user` state: absent key, a text that does not parse, or a
   * parsed profile whose registration flag is off all give no user.
   */
  function LoadUser(m: map<string, Doc>): (r: Option<Profile>)
    ensures r.Some? <==> UserKey in m && m[UserKey].ProfileDoc? && m[UserKey].profile.isRegistered
    ensures r.Some? ==> r.value == m[UserKey].profile
  {
    if UserKey in m && m[UserKey].ProfileDoc? && m[UserKey].profile.isRegistered
    then Some(m[UserKey].profile)
    else None
  }

  /** The gate test `!user || !user.isRegistered`: the registration screen is shown instead of the shell. */
  predicate ShowsGate(user: Option<Profile>): (r: bool)
    ensures user.None? ==> r
    ensures user.Some? ==> (r <==> !user.value.isRegistered)
  {
    user.None? || !user.value.isRegistered
  }

  /** A user loaded at startup is always past the gate: an unregistered profile counts as no user. */
  lemma LoadedUserPassesGate(m: map<string, Doc>)
    ensures ShowsGate(LoadUser(m)) <==> LoadUser(m).None?
  {
  }

  /** What `handleRegister` stores: the profile with its registration flag set. */
  function Registered(p: Profile): (r: Profile)
    ensures r.isRegistered
    ensures r.(isRegistered := p.isRegistered) == p
  {
    p.(isRegistered := true)
  }

  /** A stored profile is what the next startup loads, exactly when it is registered. */
  lemma StoredProfileReloads(m: map<string, Doc>, p: Profile)
    ensures LoadUser(m[UserKey := ProfileDoc(p)]) == (if p.isRegistered then Some(p) else None)
  {
  }

  /** After a wipe of every key the next startup shows the gate. */
  lemma ClearedStoreShowsGate()
    ensures ShowsGate(LoadUser(map[]))
  {
  }

  /** `toggleTheme`'s update. */
  function Toggled(t: Theme): (r: Theme)
    ensures r != t
  {
    if t == Light then Dark else Light
  }

  /** Toggling the theme twice changes nothing. */
  lemma ToggleThemeTwice(t: Theme)
    ensures Toggled(Toggled(t)) == t
  {
  }

  /** The application shell's state. */
  class App {
    var theme: Theme
    var user: Option<Profile>
    var activeTab: string
    var sidebarOpen: bool
    var profileMenuOpen: bool
    const store: Store

    /** The first render: dark theme, home tab, closed menus, and the user loaded from storage. */
    constructor (store: Store)
      ensures this.store == store
      ensures user == LoadUser(store.entries)
      ensures theme == Dark && activeTab == "home" && !sidebarOpen && !profileMenuOpen
    {
      this.store := store;
      user := LoadUser(store.entries);
      theme := Dark;
      activeTab := "home";
      sidebarOpen := false;
      profileMenuOpen := false;
    }

    /** `handleRegister`: hold and store the registered profile and go to the home tab. */
    method Register(p: Profile)
      modifies this, store
      ensures user == Some(Registered(p))
      ensures store.entries == old(store.entries)[UserKey := ProfileDoc(Registered(p))]
      ensures activeTab == "home" && !ShowsGate(user)
      ensures theme == old(theme) && sidebarOpen == old(sidebarOpen) && profileMenuOpen == old(profileMenuOpen)
    {
      var full := Registered(p);
      user := Some(full);
      store.SetItem(UserKey, ProfileDoc(full));
      activeTab := "home";
    }

    /** `handleUpdateProfile`: the held user and the stored profile both become `p`. */
    method UpdateProfile(p: Profile)
      modifies this, store
      ensures user == Some(p)
      ensures store.entries == old(store.entries)[UserKey := ProfileDoc(p)]
      ensures theme == old(theme) && activeTab == old(activeTab)
      ensures sidebarOpen == old(sidebarOpen) && profileMenuOpen == old(profileMenuOpen)
    {
      user := Some(p);
      store.SetItem(UserKey, ProfileDoc(p));
    }

    /**
     * `window.location.reload()`: the shell starts over from what storage
     * now holds, exactly as the first render does; storage is not touched.
     */
    method Reload()
      modifies this
      ensures user == LoadUser(store.entries)
      ensures theme == Dark && activeTab == "home" && !sidebarOpen && !profileMenuOpen
    {
      user := LoadUser(store.entries);
      theme := Dark;
      activeTab := "home";
      sidebarOpen := false;
      profileMenuOpen := false;
    }

    /**
     * `handleLogout`: when confirmed, every key is removed, the user is
     * dropped and the page reload brings back the first-render state; when
     * declined nothing changes.
     */
    method Logout(confirmed: bool)
      modifies this, store
      ensures confirmed ==> store.entries == map[] && user == None && ShowsGate(user)
      ensures confirmed ==> theme == Dark && activeTab == "home" && !sidebarOpen && !profileMenuOpen
      ensures !confirmed ==> store.entries == old(store.entries) && user == old(user)
      ensures !confirmed ==> theme == old(theme) && activeTab == old(activeTab)
      ensures !confirmed ==> sidebarOpen == old(sidebarOpen) && profileMenuOpen == old(profileMenuOpen)
    {
      if confirmed {
        store.Clear();
        user := None;
        Reload();
      }
    }

    /** `toggleTheme`: LIGHT and DARK swap. */
    method ToggleTheme()
      modifies this`theme
      ensures theme != old(theme) && theme == Toggled(old(theme))
    {
      theme := Toggled(theme);
    }

    /** `switchTab`: the tab becomes `id` and the sidebar closes. */
    method SwitchTab(id: string)
      modifies this`activeTab, this`sidebarOpen
      ensures activeTab == id && !sidebarOpen
    {
      activeTab := id;
      sidebarOpen := false;
    }

    /** The menu button and the backdrop or close button of the mobile sidebar. */
    method SetSidebarOpen(open: bool)
      modifies this`sidebarOpen
      ensures sidebarOpen == open
    {
      sidebarOpen := open;
    }

    /** The profile button flips the profile menu. */
    method ToggleProfileMenu()
      modifies this`profileMenuOpen
      ensures profileMenuOpen == !old(profileMenuOpen)
    {
      profileMenuOpen := !profileMenuOpen;
    }
  }
}
