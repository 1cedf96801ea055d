/**
 * pages/SettingsPage.tsx: the editable copy of the profile, the privacy
 * switches, saving back to the shell, and the wipe of the tracker archives.
 */
module Settings {
  import opened Wrappers
  import opened Types
  import opened Records
  import opened Session

  /** The privacy settings of `p`, or the defaults `toggleSetting` fills in when they are missing. */
  function PrivacyOf(p: Profile): (r: Privacy)
    ensures p.privacy.Some? ==> r == p.privacy.value
    ensures p.privacy.None? ==> r == DefaultPrivacy
  {
    p.privacy.GetOr(DefaultPrivacy)
  }

  /** One switch negated. */
  function Flip(s: Privacy, k: PrivacyFlag): (r: Privacy)
    ensures Flag(r, k) == !Flag(s, k)
    ensures forall j :: j != k ==> Flag(r, j) == Flag(s, j)
  {
    match k
    case SharePolice => s.(shareWithPolice := !s.shareWithPolice)
    case ShareGuardian => s.(shareWithGuardian := !s.shareWithGuardian)
    case AnonymousDefault => s.(anonymousDefault := !s.anonymousDefault)
  }

  /**
   * `toggleSetting(k)`: switch `k` is negated, the other two keep their
   * values (the defaults when the settings were missing), and no other field
   * of the profile changes.
   */
  function TogglePrivacy(p: Profile, k: PrivacyFlag): (r: Profile)
    ensures r.privacy.Some?
    ensures Flag(r.privacy.value, k) == !Flag(PrivacyOf(p), k)
    ensures forall j :: j != k ==> Flag(r.privacy.value, j) == Flag(PrivacyOf(p), j)
    ensures r == p.(privacy := r.privacy)
  {
    p.(privacy := Some(Flip(PrivacyOf(p), k)))
  }

  /**
   * Toggling a switch twice restores the privacy settings; when they were
   * missing, the second toggle leaves the defaults in place.
   */
  lemma ToggleTwice(p: Profile, k: PrivacyFlag)
    ensures TogglePrivacy(TogglePrivacy(p, k), k) == p.(privacy := Some(PrivacyOf(p)))
    ensures p.privacy.Some? ==> TogglePrivacy(TogglePrivacy(p, k), k) == p
  {
    var s := PrivacyOf(p);
    var t := Flip(Flip(s, k), k);
    assert forall j :: Flag(t, j) == Flag(s, j);
    assert Flag(t, SharePolice) == Flag(s, SharePolice);
    assert Flag(t, ShareGuardian) == Flag(s, ShareGuardian);
    assert Flag(t, AnonymousDefault) == Flag(s, AnonymousDefault);
  }

  /** Toggles of two different switches commute. */
  lemma TogglesCommute(p: Profile, j: PrivacyFlag, k: PrivacyFlag)
    ensures TogglePrivacy(TogglePrivacy(p, j), k) == TogglePrivacy(TogglePrivacy(p, k), j)
  {
    var a := TogglePrivacy(TogglePrivacy(p, j), k).privacy.value;
    var b := TogglePrivacy(TogglePrivacy(p, k), j).privacy.value;
    assert Flag(a, SharePolice) == Flag(b, SharePolice);
    assert Flag(a, ShareGuardian) == Flag(b, ShareGuardian);
    assert Flag(a, AnonymousDefault) == Flag(b, AnonymousDefault);
  }

  /** The confirmed archive wipe: the health log and the period days are removed, every other key is kept. */
  function ArchivesWiped(m: map<string, Doc>): (r: map<string, Doc>)
    ensures r.Keys == m.Keys - {HealthLogsKey, PeriodsKey}
    ensures forall key :: key in r ==> r[key] == m[key]
  {
    m - {HealthLogsKey, PeriodsKey}
  }

  /**
   * The wipe keeps the session: the next startup loads the same user, the
   * tracker starts from empty lists, and the trauma dump survives.
   */
  lemma WipeKeepsSessionAndNarrative(m: map<string, Doc>)
    ensures LoadUser(ArchivesWiped(m)) == LoadUser(m)
    ensures TrackerReadable(ArchivesWiped(m))
    ensures HealthLogsKey !in ArchivesWiped(m) && PeriodsKey !in ArchivesWiped(m)
    ensures TraumaReadable(m) ==> TraumaReadable(ArchivesWiped(m)) && TraumaText(ArchivesWiped(m)) == TraumaText(m)
  {
  }

  /** The settings screen's state. */
  class SettingsScreen {
    var form: Profile
    var showKey: bool
    const app: App

    /** The form starts as a copy of the current user. */
    constructor (app: App)
      requires app.user.Some?
      ensures this.app == app && form == app.user.value && !showKey
    {
      this.app := app;
      form := app.user.value;
      showKey := false;
    }

    /** `handleSave`: the shell's `handleUpdateProfile` receives the form. */
    method Save()
      modifies app, app.store
      ensures app.user == Some(form)
      ensures app.store.entries == old(app.store.entries)[UserKey := ProfileDoc(form)]
      ensures app.activeTab == old(app.activeTab) && app.theme == old(app.theme)
      ensures app.sidebarOpen == old(app.sidebarOpen) && app.profileMenuOpen == old(app.profileMenuOpen)
    {
      app.UpdateProfile(form);
    }

    method ToggleSetting(k: PrivacyFlag)
      modifies this`form
      ensures form == TogglePrivacy(old(form), k)
    {
      form := TogglePrivacy(form, k);
    }

    method NameInput(val: string)
      modifies this`form
      ensures form == old(form).(name := val)
    {
      form := form.(name := val);
    }

    method EmailInput(val: string)
      modifies this`form
      ensures form == old(form).(email := val)
    {
      form := form.(email := val);
    }

    method ApiKeyInput(val: string)
      modifies this`form
      ensures form == old(form).(customApiKey := Some(val))
    {
      form := form.(customApiKey := Some(val));
    }

    /** The eye button shows or hides the key. */
    method ToggleShowKey()
      modifies this`showKey
      ensures showKey == !old(showKey)
    {
      showKey := !showKey;
    }

    /**
     * "Wipe Local Archives": when confirmed the two tracker keys go and the
     * page reloads, so the shell starts over from the remaining keys with
     * the same user; when declined nothing changes.
     */
    method WipeArchives(confirmed: bool)
      modifies app, app.store
      ensures app.store.entries == if confirmed then ArchivesWiped(old(app.store.entries)) else old(app.store.entries)
      ensures confirmed ==> app.user == LoadUser(app.store.entries) && app.user == LoadUser(old(app.store.entries))
      ensures confirmed ==> app.theme == Dark && app.activeTab == "home" && !app.sidebarOpen && !app.profileMenuOpen
      ensures !confirmed ==> app.user == old(app.user) && app.theme == old(app.theme) && app.activeTab == old(app.activeTab)
      ensures !confirmed ==> app.sidebarOpen == old(app.sidebarOpen) && app.profileMenuOpen == old(app.profileMenuOpen)
    {
      if confirmed {
        app.store.RemoveItem(HealthLogsKey);
        app.store.RemoveItem(PeriodsKey);
        WipeKeepsSessionAndNarrative(old(app.store.entries));
        app.Reload();
      }
    }
  }
}
