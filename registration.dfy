/**
 * pages/RegistrationPage.tsx: the draft profile of the gate screen, its
 * input sanitisers, and the submit handler that either signs in with the
 * stored profile or registers the draft.
 */
module Registration {
  import opened Wrappers
  import opened Strings
  import opened Types
  import opened Records
  import opened Session

  const InitialBadges: seq<string> := ["Survivor Initialized"]

  /** The draft the form starts with. */
  function InitialDraft(): (d: Profile)
    ensures d.isRegistered && d.points == 100 && d.badges == InitialBadges
    ensures d.privacy == Some(Privacy(false, true, true))
    ensures d.name == "" && d.email == "" && d.aadhar == "" && d.customApiKey == None
  {
    Profile(
      name := "", email := "", gender := "female", age := 21, profession := "",
      photo := Some(""), contact := "", parentContact := "", guardianName := "",
      guardianContact := "", peerName := "", peerContact := "", aadhar := "",
      pan := Some(""), isRegistered := true, points := 100, badges := InitialBadges,
      privacy := Some(DefaultPrivacy), customApiKey := None)
  }

  /** The fields filled through `handleNumericInput`, each with its length cap. */
  datatype NumericField = AadharField | ContactField | GuardianContactField | PeerContactField

  function Cap(f: NumericField): (n: nat)
    ensures f == AadharField ==> n == 12
    ensures f != AadharField ==> n == 10
  {
    if f == AadharField then 12 else 10
  }

  /** The fields filled through `handleTextInput`. */
  datatype NameField = NameOfUser | GuardianNameField | PeerNameField

  function NumericValue(p: Profile, f: NumericField): string
  {
    match f
    case AadharField => p.aadhar
    case ContactField => p.contact
    case GuardianContactField => p.guardianContact
    case PeerContactField => p.peerContact
  }

  /** The draft with one digit field replaced; every other field, digit or not, is kept. */
  function WithNumeric(p: Profile, f: NumericField, v: string): (r: Profile)
    ensures NumericValue(r, f) == v
    ensures forall g :: g != f ==> NumericValue(r, g) == NumericValue(p, g)
    ensures r.(aadhar := p.aadhar, contact := p.contact, guardianContact := p.guardianContact, peerContact := p.peerContact) == p
  {
    match f
    case AadharField => p.(aadhar := v)
    case ContactField => p.(contact := v)
    case GuardianContactField => p.(guardianContact := v)
    case PeerContactField => p.(peerContact := v)
  }

  function NameValue(p: Profile, f: NameField): string
  {
    match f
    case NameOfUser => p.name
    case GuardianNameField => p.guardianName
    case PeerNameField => p.peerName
  }

  /** The draft with one name field replaced; every other field, name or not, is kept. */
  function WithName(p: Profile, f: NameField, v: string): (r: Profile)
    ensures NameValue(r, f) == v
    ensures forall g :: g != f ==> NameValue(r, g) == NameValue(p, g)
    ensures r.(name := p.name, guardianName := p.guardianName, peerName := p.peerName) == p
  {
    match f
    case NameOfUser => p.(name := v)
    case GuardianNameField => p.(guardianName := v)
    case PeerNameField => p.(peerName := v)
  }

  /**
   * The new value of a digit field: the digits of `val`, unless there are
   * more of them than the cap, in which case the field keeps its value.
   */
  function NumericEntry(current: string, val: string, cap: nat): (r: string)
    ensures r == current || r == DigitsOnly(val)
    ensures |DigitsOnly(val)| > cap ==> r == current
    ensures |DigitsOnly(val)| <= cap ==> r == DigitsOnly(val)
    ensures AllDigits(current) && |current| <= cap ==> AllDigits(r) && |r| <= cap
    ensures AllDigits(val) && |val| <= cap ==> r == val
  {
    var digits := DigitsOnly(val);
    if |digits| > cap then current else digits
  }

  /** What the input handlers guarantee of the draft: digit fields within their caps, name fields letters and whitespace only. */
  predicate Sanitised(p: Profile)
  {
    && AllDigits(p.aadhar) && |p.aadhar| <= 12
    && AllDigits(p.contact) && |p.contact| <= 10
    && AllDigits(p.guardianContact) && |p.guardianContact| <= 10
    && AllDigits(p.peerContact) && |p.peerContact| <= 10
    && AllNameChars(p.name) && AllNameChars(p.guardianName) && AllNameChars(p.peerName)
  }

  /**
   * The user key, when present, holds a text `JSON.parse` accepts (the
   * sign-in path parses it without a guard), or the empty string the
   * `if (saved)` test treats as absent.
   */
  predicate SignInReadable(m: map<string, Doc>)
  {
    UserKey in m ==> !m[UserKey].Unparseable? && (m[UserKey].TextDoc? ==> m[UserKey].text == "")
  }

  /** The sign-in lookup: the stored profile, when its email or its Aadhar number equals the draft's. */
  function SignInLookup(m: map<string, Doc>, form: Profile): (r: Option<Profile>)
    requires SignInReadable(m)
    ensures r.Some? <==> UserKey in m && m[UserKey].ProfileDoc? &&
                         (m[UserKey].profile.email == form.email || m[UserKey].profile.aadhar == form.aadhar)
    ensures r.Some? ==> r.value == m[UserKey].profile
  {
    if UserKey in m && m[UserKey].ProfileDoc? then
      var saved := m[UserKey].profile;
      if saved.email == form.email || saved.aadhar == form.aadhar then Some(saved) else None
    else
      None
  }

  /** The sign-in form shows only the email field, so the Aadhar number of a stored profile cannot match it and the email alone decides. */
  lemma SignInByEmail(m: map<string, Doc>, stored: Profile, email: string)
    requires UserKey in m && m[UserKey] == ProfileDoc(stored) && |stored.aadhar| == 12
    ensures SignInLookup(m, InitialDraft().(email := email)) == (if email == stored.email then Some(stored) else None)
  {
  }

  datatype SubmitOutcome =
    | Completed(profile: Profile)   // onComplete is called with this profile
    | InvalidAadhar                 // "Aadhar Number must be exactly 12 digits."
    | AccountNotFound               // "Account not found. Please register as a new survivor."

  /** `handleSubmit`'s decision. */
  function Submit(signIn: bool, form: Profile, m: map<string, Doc>): (r: SubmitOutcome)
    requires signIn ==> SignInReadable(m)
    ensures signIn ==> r != InvalidAadhar
    ensures signIn ==> (r.Completed? <==> SignInLookup(m, form).Some?)
    ensures signIn && r.Completed? ==> r.profile == m[UserKey].profile
    ensures !signIn ==> r != AccountNotFound
    ensures !signIn ==> (r.Completed? <==> |form.aadhar| == 12)
    ensures !signIn && r.Completed? ==> r.profile == form
  {
    if signIn then
      match SignInLookup(m, form)
      case Some(saved) => Completed(saved)
      case None => AccountNotFound
    else if form.aadhar == "" || |form.aadhar| != 12 then
      InvalidAadhar
    else
      Completed(form)
  }

  /** A registration that goes through carries exactly twelve digits and the starting points and badge. */
  lemma RegistrationIsValid(form: Profile, m: map<string, Doc>)
    requires Sanitised(form) && form.points == 100 && form.badges == InitialBadges
    requires Submit(false, form, m).Completed?
    ensures var p := Registered(Submit(false, form, m).profile);
      && |p.aadhar| == 12 && AllDigits(p.aadhar)
      && p.isRegistered && p.points == 100 && |p.badges| == 1
  {
  }

  /** The gate screen's form. */
  class RegistrationScreen {
    var signIn: bool
    var form: Profile
    const app: App

    /** The invariant the handlers keep: a sanitised draft that still carries the starting gamification values. */
    predicate Valid()
      reads this
    {
      Sanitised(form) && form.isRegistered && form.points == 100 && form.badges == InitialBadges
    }

    constructor (app: App)
      ensures this.app == app && !signIn && form == InitialDraft() && Valid()
    {
      this.app := app;
      signIn := false;
      form := InitialDraft();
    }

    /** The two mode buttons. */
    method SetMode(toSignIn: bool)
      modifies this`signIn
      ensures signIn == toSignIn
    {
      signIn := toSignIn;
    }

    /** `handleNumericInput(field, val, Cap(field))`. */
    method NumericInput(f: NumericField, val: string)
      requires Valid()
      modifies this`form
      ensures Valid()
      ensures form == WithNumeric(old(form), f, NumericEntry(NumericValue(old(form), f), val, Cap(f)))
    {
      form := WithNumeric(form, f, NumericEntry(NumericValue(form, f), val, Cap(f)));
    }

    /** `handleTextInput(field, val)`. */
    method TextInput(f: NameField, val: string)
      requires Valid()
      modifies this`form
      ensures Valid()
      ensures form == WithName(old(form), f, LettersOnly(val))
    {
      form := WithName(form, f, LettersOnly(val));
    }

    /** The PAN field stores what is typed, upper-cased. */
    method PanInput(val: string)
      requires Valid()
      modifies this`form
      ensures Valid()
      ensures form == old(form).(pan := Some(UpperAscii(val)))
    {
      form := form.(pan := Some(UpperAscii(val)));
    }

    method EmailInput(val: string)
      requires Valid()
      modifies this`form
      ensures Valid() && form == old(form).(email := val)
    {
      form := form.(email := val);
    }

    method ProfessionInput(val: string)
      requires Valid()
      modifies this`form
      ensures Valid() && form == old(form).(profession := val)
    {
      form := form.(profession := val);
    }

    method GenderInput(val: string)
      requires Valid()
      modifies this`form
      ensures Valid() && form == old(form).(gender := val)
    {
      form := form.(gender := val);
    }

    /** The age field; `parsed` is what `parseInt` made of the input. */
    method AgeInput(parsed: int)
      requires Valid()
      modifies this`form
      ensures Valid() && form == old(form).(age := parsed)
    {
      form := form.(age := parsed);
    }

    /** The photo becomes the data URL the file reader produced, or "" when removed. */
    method PhotoInput(dataUrl: string)
      requires Valid()
      modifies this`form
      ensures Valid() && form == old(form).(photo := Some(dataUrl))
    {
      form := form.(photo := Some(dataUrl));
    }

    /**
     * `handleSubmit`. A sign-in that finds the stored profile, or a draft with
     * a twelve-character Aadhar number, is handed to the shell; a failed
     * sign-in switches the form to registration; a bad Aadhar number changes
     * nothing.
     */
    method HandleSubmit() returns (outcome: SubmitOutcome)
      requires signIn ==> SignInReadable(app.store.entries)
      modifies this`signIn, app, app.store
      ensures outcome == Submit(old(signIn), form, old(app.store.entries))
      ensures signIn == (old(signIn) && !outcome.AccountNotFound?)
      ensures outcome.Completed? ==>
        && app.user == Some(Registered(outcome.profile))
        && app.store.entries == old(app.store.entries)[UserKey := ProfileDoc(Registered(outcome.profile))]
        && app.activeTab == "home" && !ShowsGate(app.user)
      ensures !outcome.Completed? ==>
        app.user == old(app.user) && app.store.entries == old(app.store.entries) && app.activeTab == old(app.activeTab)
      ensures app.theme == old(app.theme) && app.sidebarOpen == old(app.sidebarOpen) && app.profileMenuOpen == old(app.profileMenuOpen)
    {
      outcome := Submit(signIn, form, app.store.entries);
      match outcome
      case Completed(p) => app.Register(p);
      case AccountNotFound => signIn := false;
      case InvalidAadhar =>
    }
  }
}
