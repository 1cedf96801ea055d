# SafeSpace client state layer, in Dafny

SafeSpace is a browser application for survivors of abuse. Its screens hold
React state and share one browser key-value store (`localStorage`). This
project models that state layer.

**What is modelled**

- **The store.** It has four keys:
  - `safe_space_user`: the profile.
  - `safe_space_health_logs`: the forensic health log.
  - `safe_space_periods`: the period days.
  - `safe_space_trauma_dump`: the narrative log the chat writes and the report builder reads.
- **The screen state machines** that read and write the store:
  - the session gate and the application shell;
  - registration and sign-in;
  - the wellness points and badge;
  - the privacy switches and the archive wipe;
  - the health tracker;
  - the chat;
  - the report builder;
  - the complaint box;
  - the in-memory discharge log;
  - the particle buffer of the background animation.

**How it is modelled**

- Each screen is a `class`:
  - Its fields are the screen's state.
  - Its methods are the handlers, each with a `modifies` clause and an `ensures` that describes the whole new state.
  - A screen that calls back into the shell holds the `Session.App` object. A screen that uses storage directly holds the `Records.Store`.
- The pure decisions are functions with contracts, with lemmas beside them. These cover:
  - the startup load, routing and the gate;
  - the Aadhar check and the sign-in lookup;
  - the input sanitisers;
  - the points and badge award;
  - the breathing and quote timers;
  - the privacy toggle and the wipe;
  - the period-day toggle and delete-by-id;
  - the calendar day strings;
  - the narrative log line and the case-category append;
  - the particle window.

**Modules**

| Module | Source file | What it holds |
|---|---|---|
| `Wrappers` | — | `Option` |
| `Strings` | — | character classes, regular-expression filters, `trim`/`includes`, upper-casing, decimal rendering |
| `Types` | `types.ts` | the profile record |
| `Records` | — | the store |
| `Session` | `App.tsx` | the application shell |
| `Registration` | `pages/RegistrationPage.tsx` | |
| `Wellness` | `pages/WellnessPage.tsx` | |
| `Settings` | `pages/SettingsPage.tsx` | |
| `Tracker` | `pages/TrackerPage.tsx` | |
| `Assistant` | `pages/AssistantPage.tsx` | |
| `Justice` | `pages/JusticePage.tsx` | |
| `Home` | `pages/HomePage.tsx` | |
| `Health` | `pages/HealthPage.tsx` | |
| `Particles` | `components/FloatingParticles.tsx` | |

**The environment is passed in as parameters:**

- a confirm dialog's answer, as `confirmed`;
- `Date.now()`, as `now`;
- locale and ISO timestamps, as strings;
- `Math.random()` draws, as reals in [0, 1);
- the results of the AI service calls, as strings, `Analysis` or `Option<Report>`.

Asynchronous handlers are split into two methods: one runs up to the awaited call, the other receives its result.

## Model

| member | source | states |
|---|---|---|
| Strings.DigitsOnly | pages/RegistrationPage.tsx:77 | The result holds only digits and is never longer than the input; a digit string is kept as is, and an input without a digit gives "" |
| Strings.LettersOnly | pages/RegistrationPage.tsx:83 | The result holds only ASCII letters and whitespace and is never longer than the input; such a string is kept as is, and an input with none of them gives "" |
| Strings.DigitsOnlyDistributes | pages/RegistrationPage.tsx:77 | The digit filter works character by character: filtering `a + b` is filtering `a`, then `b`, so the order of digits is kept |
| Strings.LettersOnlyDistributes | pages/RegistrationPage.tsx:83 | The letters filter distributes over concatenation in the same way |
| Strings.FiltersIdempotent | pages/RegistrationPage.tsx:76-85 | Applying either sanitiser twice is the same as applying it once |
| Strings.TrimStart | pages/AssistantPage.tsx:53 | The front of `trim`: a suffix of the input, all of whose dropped characters are whitespace, that does not start with whitespace |
| Strings.TrimEnd | pages/AssistantPage.tsx:53 | The back of `trim`: a prefix of the input, all of whose dropped characters are whitespace, that does not end with whitespace |
| Strings.Trim | pages/AssistantPage.tsx:53 | `trim` gives a string no longer than the input that neither starts nor ends with whitespace |
| Strings.TrimEmptyIffAllSpace | pages/AssistantPage.tsx:53 | `trim` leaves the empty string exactly when every character is ECMAScript whitespace (the `IsSpace` set) |
| Strings.IsBlank | pages/JusticePage.tsx:33 | The `!x.trim()` guard of pages/AssistantPage.tsx:53, pages/JusticePage.tsx:33 and pages/HomePage.tsx:50: blank exactly when `trim` leaves nothing, that is, when every character is ECMAScript whitespace (the `IsSpace` set) |
| Strings.Contains | pages/JusticePage.tsx:27 | `includes`: some position holds the searched string; the empty string is in every text, a text contains itself, and nothing longer than the text is in it |
| Strings.EndsWithContains | pages/JusticePage.tsx:27 | `includes` finds a string in any text that ends with it |
| Strings.UpperAscii | pages/RegistrationPage.tsx:212 | Upper-casing keeps the length, leaves no lower-case ASCII letter, maps each lower-case letter to its capital and keeps every other character |
| Strings.UpperAsciiIdempotent | pages/RegistrationPage.tsx:212 | Upper-casing twice is upper-casing once |
| Strings.Decimal | pages/TrackerPage.tsx:84 | `String(n)` is a non-empty digit string without a leading zero, and it is "0" exactly for zero |
| Strings.DecimalRoundTrip | pages/TrackerPage.tsx:84 | Reading the decimal rendering of `n` back gives `n` |
| Strings.PadTwo | pages/TrackerPage.tsx:84 | `padStart(2, '0')` keeps a string of two or more characters and otherwise left-fills it with zeros to length two |
| Strings.PadTwoDecimal | pages/TrackerPage.tsx:84 | A padded number is still a digit string with the same value, of length two for numbers under ten |
| Records.TraumaText | pages/AssistantPage.tsx:60 | The stored narrative text, or "" when the key is absent (the key holds text, `Records.TraumaReadable`) |
| Records.Store.SetItem | App.tsx:53 | `setItem` replaces one key and keeps every other |
| Records.Store.RemoveItem | pages/SettingsPage.tsx:142-143 | `removeItem` drops one key and keeps every other |
| Records.Store.Clear | App.tsx:65 | `clear` empties the store |
| Session.PageId | constants.tsx:37-52 | Every screen's id is one of the fourteen navigation ids |
| Session.Route | App.tsx:97-113 | A navigation id selects the screen with that id; any other id selects the home screen |
| Session.RouteRoundTrip | App.tsx:97-113 | Routing a screen's own id gives that screen back, so no two screens share an id |
| Session.RenderContent | App.tsx:95-114 | Nothing is rendered exactly when there is no user; otherwise the routed screen is rendered, with home as the fallback for unknown ids |
| Session.LoadUser | App.tsx:24-33 | The startup user exists exactly when the key is present, holds a parsed profile, and that profile is registered; an absent key, a text that does not parse and an unregistered profile all give no user |
| Session.ShowsGate | App.tsx:116 | The gate shows when there is no user, and for a user exactly when the profile is not registered |
| Session.LoadedUserPassesGate | App.tsx:116 | The gate shows for the loaded user exactly when no user was loaded |
| Session.Registered | App.tsx:51 | The registered profile has its flag set and equals the input in every other field |
| Session.StoredProfileReloads | App.tsx:24-33 | A profile written to the user key is what the next startup loads, exactly when it is registered |
| Session.ClearedStoreShowsGate | App.tsx:62-72 | After every key is removed, the next startup shows the gate |
| Session.Toggled | App.tsx:74 | The theme toggle always changes the theme |
| Session.ToggleThemeTwice | App.tsx:74 | Toggling the theme twice gives the original theme |
| Session.App.constructor | App.tsx:22-36 | The first render has the dark theme, the home tab, both menus closed and the user loaded from the store |
| Session.App.Register | App.tsx:50-55 | The held user and the stored profile are both the registered profile; the tab is home and the gate no longer shows; the theme and menus are unchanged |
| Session.App.UpdateProfile | App.tsx:57-60 | The held user and the stored profile are both exactly the given profile; nothing else changes |
| Session.App.Reload | App.tsx:70 | The page reload restarts the shell from what storage now holds: the user is the startup load of the store, with the dark theme, the home tab and both menus closed |
| Session.App.Logout | App.tsx:62-72 | When confirmed, the store is empty, there is no user (so the gate shows) and the shell is back in its first-render state; when declined, nothing changes |
| Session.App.ToggleTheme | App.tsx:74 | LIGHT and DARK swap |
| Session.App.SwitchTab | App.tsx:90-93 | The active tab becomes the id and the sidebar closes |
| Session.App.SetSidebarOpen | App.tsx:151 | The sidebar's open state becomes the given value |
| Session.App.ToggleProfileMenu | App.tsx:225 | The profile menu flips between open and closed |
| Registration.InitialDraft | pages/RegistrationPage.tsx:11-34 | The draft starts registered, with 100 points, the single badge "Survivor Initialized", empty identity fields, and privacy set to police off, guardian on and anonymous on |
| Registration.Cap | pages/RegistrationPage.tsx:208-248 | The Aadhar field is capped at 12 digits and the three phone fields at 10 |
| Registration.WithNumeric | pages/RegistrationPage.tsx:79 | The chosen digit field takes the new value; the other digit fields and every other profile field are unchanged |
| Registration.WithName | pages/RegistrationPage.tsx:84 | The chosen name field takes the new value; the other name fields and every other profile field are unchanged |
| Registration.NumericEntry | pages/RegistrationPage.tsx:76-80 | A field becomes the digits of the input when there are at most the cap of them; with more than the cap it keeps its old value, so the input is rejected rather than truncated; a digit field within its cap stays one |
| Registration.SignInLookup | pages/RegistrationPage.tsx:56-63 | Sign-in finds a profile exactly when a parsed profile is stored whose email or Aadhar number equals the draft's; the stored profile is returned unchanged |
| Registration.SignInByEmail | pages/RegistrationPage.tsx:56-63 | From the sign-in form, where only the email is typed, that email alone decides whether the stored profile (one with a twelve-digit Aadhar number) is found |
| Registration.Submit | pages/RegistrationPage.tsx:54-74 | A sign-in completes exactly when the lookup finds the stored profile, and otherwise reports that no account was found. A registration completes with the draft exactly when its Aadhar number has twelve characters, and otherwise reports an invalid Aadhar |
| Registration.RegistrationIsValid | pages/RegistrationPage.tsx:68-72 | A sanitised draft that gets through registration is stored with a twelve-digit Aadhar number, the registered flag, 100 points and one badge |
| Registration.RegistrationScreen.constructor | pages/RegistrationPage.tsx:10-34 | The screen starts in registration mode with the initial draft, which satisfies the form invariant |
| Registration.RegistrationScreen.SetMode | pages/RegistrationPage.tsx:107-114 | The mode buttons set sign-in mode on or off |
| Registration.RegistrationScreen.NumericInput | pages/RegistrationPage.tsx:76-80 | The field takes the numeric entry of the input and the form invariant is kept (digit fields within their caps) |
| Registration.RegistrationScreen.TextInput | pages/RegistrationPage.tsx:82-85 | The name field takes the letters-only input and the form invariant is kept |
| Registration.RegistrationScreen.PanInput | pages/RegistrationPage.tsx:212 | The PAN field holds the upper-cased input |
| Registration.RegistrationScreen.EmailInput | pages/RegistrationPage.tsx:170 | Only the email field changes |
| Registration.RegistrationScreen.ProfessionInput | pages/RegistrationPage.tsx:176 | Only the profession field changes |
| Registration.RegistrationScreen.GenderInput | pages/RegistrationPage.tsx:182 | Only the gender field changes |
| Registration.RegistrationScreen.AgeInput | pages/RegistrationPage.tsx:190 | Only the age field changes, to the parsed number |
| Registration.RegistrationScreen.PhotoInput | pages/RegistrationPage.tsx:43-52 | Only the photo field changes: to the data URL read, or to "" when removed |
| Registration.RegistrationScreen.HandleSubmit | pages/RegistrationPage.tsx:54-74 | The outcome is the submit decision. On completion the shell holds and stores the registered profile and is on the home tab past the gate. A failed sign-in switches to registration mode. Otherwise the shell and the store are unchanged. The theme and both menus are never changed |
| Wellness.Award | pages/WellnessPage.tsx:49-60 | Points grow by the award. The badges keep their order as a prefix. The warrior badge is present exactly when it was before or the new total is at least 500. No other badge appears, the list grows by one badge exactly when the warrior badge is newly earned, and no other profile field changes |
| Wellness.AwardNeverDuplicates | pages/WellnessPage.tsx:56-58 | An award adds the warrior badge once at most: it occurs as often as before when it was already held, and otherwise once exactly when the total reaches 500 |
| Wellness.AwardAllTotals | pages/WellnessPage.tsx:49-60 | Over any run of non-negative awards, the points are the start plus the sum and never decrease. The badge is held exactly when it was held before or the total reached 500, it never occurs twice, and the other fields are unchanged |
| Wellness.ThresholdCrossedOnce | pages/WellnessPage.tsx:56-58 | From zero, awards of 480, 30 and 20 give 530 points. The badge first appears on the second award and is held once |
| Wellness.AwardFor | pages/WellnessPage.tsx:201-202 | Every activity awards between 5 and 50 points, a mood check exactly 5, so no award is negative (the buttons are at lines 104, 135 and 212) |
| Wellness.NextPhase | pages/WellnessPage.tsx:28-33 | Each phase step changes the phase (the order of the steps is stated by `Wellness.PhaseCycle`) |
| Wellness.PhaseCycle | pages/WellnessPage.tsx:28-33 | Each step moves to the next phase in the order In, Hold, Out, Pause and wraps from Pause to In, so four steps bring every phase back |
| Wellness.Tick | pages/WellnessPage.tsx:26-37 | Progress stays within 0..100. The phase advances exactly when progress was at least 100, and then progress resets to 0; otherwise progress goes up by one |
| Wellness.TicksFromZero | pages/WellnessPage.tsx:24-40 | From zero progress, k ticks (k at most 100) reach progress k in the same phase |
| Wellness.PhaseLasts101Ticks | pages/WellnessPage.tsx:24-40 | Every phase lasts exactly 101 ticks before the next phase starts at zero progress |
| Wellness.NextQuote | pages/WellnessPage.tsx:44 | The next quote index is a valid index of the four quotes: the successor, wrapping from the last back to 0 |
| Wellness.WellnessScreen.constructor | pages/WellnessPage.tsx:19-22 | The breathing starts at In with progress 0, no mood and the first quote |
| Wellness.WellnessScreen.BreathTick | pages/WellnessPage.tsx:24-40 | The breath takes one tick and progress stays within 0..100 |
| Wellness.WellnessScreen.QuoteTick | pages/WellnessPage.tsx:42-47 | The quote index advances and stays valid |
| Wellness.WellnessScreen.CurrentQuote | pages/WellnessPage.tsx:117 | The quote on display is one of the four quotes |
| Wellness.WellnessScreen.CompleteSession | pages/WellnessPage.tsx:49-60 | The shell holds and stores the awarded profile, whose points have strictly increased; a mood check records the mood; the timers, the tab, the theme and both menus are unchanged |
| Settings.PrivacyOf | pages/SettingsPage.tsx:24-30 | The settings in use are the stored ones, or police off, guardian on and anonymous on when they are missing |
| Settings.Flip | pages/SettingsPage.tsx:35 | The chosen switch is negated and the other two keep their values |
| Settings.TogglePrivacy | pages/SettingsPage.tsx:23-38 | The chosen switch is negated, the other two keep their values (the defaults when the settings were missing), and no other profile field changes |
| Settings.ToggleTwice | pages/SettingsPage.tsx:35 | Toggling a switch twice restores the privacy settings, and the profile itself when they were present |
| Settings.TogglesCommute | pages/SettingsPage.tsx:31-37 | Toggling two switches gives the same profile in either order |
| Settings.ArchivesWiped | pages/SettingsPage.tsx:140-146 | The wipe removes exactly the health-log and period keys; every other key keeps its document |
| Settings.WipeKeepsSessionAndNarrative | pages/SettingsPage.tsx:140-146 | After the wipe the next startup loads the same user, the tracker keys are absent (so the tracker starts from empty lists), and a narrative text is intact |
| Settings.SettingsScreen.constructor | pages/SettingsPage.tsx:10-12 | The form starts as a copy of the current user, with the key hidden |
| Settings.SettingsScreen.Save | pages/SettingsPage.tsx:14-17 | The shell holds and stores exactly the form; the tab, the theme and both menus are unchanged |
| Settings.SettingsScreen.ToggleSetting | pages/SettingsPage.tsx:23-38 | The form takes the privacy toggle |
| Settings.SettingsScreen.NameInput | pages/SettingsPage.tsx:59 | Only the name field changes |
| Settings.SettingsScreen.EmailInput | pages/SettingsPage.tsx:67 | Only the email field changes |
| Settings.SettingsScreen.ApiKeyInput | pages/SettingsPage.tsx:116 | Only the API key field changes |
| Settings.SettingsScreen.ToggleShowKey | pages/SettingsPage.tsx:120 | The key's visibility flips |
| Settings.SettingsScreen.WipeArchives | pages/SettingsPage.tsx:140-146 | When confirmed, the store loses exactly the two archive keys and the page reload restarts the shell with the same user, the dark theme, the home tab and both menus closed; when declined, the store and the shell are unchanged |
| Tracker.Filter | pages/TrackerPage.tsx:43 | `filter` keeps exactly the accepted elements, is never longer than the input, and keeps everything when all elements are accepted |
| Tracker.FilterAppend | pages/TrackerPage.tsx:51 | Filtering distributes over concatenation, so the survivors keep their relative order |
| Tracker.FilterKeepsNoDuplicates | pages/TrackerPage.tsx:43 | Filtering a list without duplicates gives a list without duplicates |
| Tracker.DaysWithout | pages/TrackerPage.tsx:43 | The day is gone, and every other day is in the result exactly when it was in the input (order and count follow from `Tracker.Filter` and `Tracker.FilterAppend`) |
| Tracker.ToggledDays | pages/TrackerPage.tsx:42-44 | The day is in the new list exactly when it was not in the old one; other days are unaffected; an absent day is appended at the end |
| Tracker.ToggleKeepsNoDuplicates | pages/TrackerPage.tsx:42-44 | A toggle never introduces a duplicate day |
| Tracker.ToggleAbsentTwice | pages/TrackerPage.tsx:41-47 | Toggling an absent day twice gives back the original list |
| Tracker.ToggleDayScenario | pages/TrackerPage.tsx:41-47 | From no days, one toggle of 2024-05-01 stores exactly that day and a second toggle clears it |
| Tracker.LogsWithout | pages/TrackerPage.tsx:51 | Exactly the entries with other ids remain; when no entry has the id, the list is unchanged |
| Tracker.LogsWithoutAppend | pages/TrackerPage.tsx:51 | Deleting by id works entry by entry, so the remaining entries keep their order |
| Tracker.DayString | pages/TrackerPage.tsx:84 | The day string starts with the year's digits and a dash, and the padded month, a dash and the padded day (at least five characters) follow |
| Tracker.DayStringFormat | pages/TrackerPage.tsx:84 | A day string is the year digits, a dash, two month digits, a dash and two day digits, and each field reads back as its number; a four-digit year gives `YYYY-MM-DD` of length 10 |
| Tracker.StoredLogs | pages/TrackerPage.tsx:10-13 | The initial log is the stored list when one is stored, and empty when the key is absent or holds the empty string |
| Tracker.StoredDays | pages/TrackerPage.tsx:14-17 | The initial period days are the stored list when one is stored, and empty when the key is absent or holds the empty string |
| Tracker.TrackerScreen.constructor | pages/TrackerPage.tsx:5-17 | Today is selected, the observation starts as "none" at "Vagina" with empty notes, and both lists equal what storage holds (empty for absent keys) |
| Tracker.TrackerScreen.SelectDate | pages/TrackerPage.tsx:92 | The selected day becomes the clicked day |
| Tracker.TrackerScreen.DischargeTypeInput | pages/TrackerPage.tsx:160 | The observation type becomes the chosen value |
| Tracker.TrackerScreen.DischargeLocInput | pages/TrackerPage.tsx:150 | The location becomes the chosen value |
| Tracker.TrackerScreen.NotesInput | pages/TrackerPage.tsx:175 | The notes become the typed text |
| Tracker.TrackerScreen.SaveHealth | pages/TrackerPage.tsx:23-39 | With empty notes and type "none", nothing changes. Otherwise the new entry is first and the old entries follow in order; the stored key equals the new list and the notes are cleared. The screen stays in sync with storage |
| Tracker.TrackerScreen.TogglePeriodDay | pages/TrackerPage.tsx:41-47 | The period list takes the toggle of the selected day and is stored; the screen stays in sync with storage |
| Tracker.TrackerScreen.DeleteLog | pages/TrackerPage.tsx:49-55 | When confirmed, exactly the entries with that id go and the rest is stored; when declined, nothing changes |
| Assistant.LogLine | pages/AssistantPage.tsx:61 | A log line is a newline, `[`, the timestamp, `] ` and the message, in that order, and is four characters longer than the two together |
| Assistant.AppendAllSplits | pages/AssistantPage.tsx:60-62 | The narrative log only grows at its end: the old log is a prefix after any run of sends, and two runs appended one after the other equal the combined run |
| Assistant.AssistantScreen.constructor | pages/AssistantPage.tsx:9-17 | The chat starts with exactly one assistant greeting, empty input and no analysis; anonymous mode starts at the user's default |
| Assistant.AssistantScreen.InputChanged | pages/AssistantPage.tsx:161 | The input becomes the typed text |
| Assistant.AssistantScreen.SpeechResult | pages/AssistantPage.tsx:31-37 | A speech result replaces the input |
| Assistant.AssistantScreen.ToggleAnonymous | pages/AssistantPage.tsx:90 | Anonymous mode flips |
| Assistant.AssistantScreen.BeginSend | pages/AssistantPage.tsx:52-66 | Whitespace-only input changes nothing and nothing is sent. Otherwise exactly one user message with the input is appended; the input is cleared and typing starts; the narrative key holds the old text (or "") plus the new log line; analysis is requested exactly when the message is longer than 40 |
| Assistant.AssistantScreen.ReceiveReply | pages/AssistantPage.tsx:68-70 | The reply is appended after the user's message and typing stops |
| Assistant.AssistantScreen.ReceiveAnalysis | pages/AssistantPage.tsx:65 | The analysis shown is the one received |
| Justice.CategoryTag | pages/JusticePage.tsx:26 | The category line is a newline and `[CASE CATEGORY: `, then the prompt, then `]` and a newline |
| Justice.WithCategory | pages/JusticePage.tsx:24-30 | The old logs are always a prefix. The category line is appended exactly when the logs do not already contain it |
| Justice.ApplyTemplateIdempotent | pages/JusticePage.tsx:24-30 | After a template is applied, its category line is in the logs, so applying it again changes nothing |
| Justice.JusticeScreen.constructor | pages/JusticePage.tsx:13-22 | The logs start as the stored narrative text, or "" when there is none; no report, no template, not loading |
| Justice.JusticeScreen.ApplyTemplate | pages/JusticePage.tsx:24-30 | The template is selected whether or not text was added, and the logs take the category append |
| Justice.JusticeScreen.LogsInput | pages/JusticePage.tsx:111 | The logs become the edited text |
| Justice.JusticeScreen.BeginGenerate | pages/JusticePage.tsx:32-38 | Whitespace-only logs are refused with nothing requested and loading untouched; otherwise loading starts and the logs are what is sent |
| Justice.JusticeScreen.FinishGenerate | pages/JusticePage.tsx:38-44 | A report replaces the old one and a failure keeps it; loading is off afterwards |
| Justice.JusticeScreen.Download | pages/JusticePage.tsx:47-48 | The exported report is the current one, and nothing when there is none |
| Home.SubmitNotice | pages/HomePage.tsx:51 | The anonymous notice is one fixed text; otherwise the notice is a fixed head, the user's name and a fixed tail |
| Home.NoticeNamesUserUnlessAnonymous | pages/HomePage.tsx:51 | The notice contains the user's name when anonymous mode is off; an anonymous notice is the same whatever the name |
| Home.HomeScreen.constructor | pages/HomePage.tsx:11-13 | The complaint starts empty and anonymous mode off |
| Home.HomeScreen.ComplaintInput | pages/HomePage.tsx:131 | The complaint becomes the typed text |
| Home.HomeScreen.SpeechResult | pages/HomePage.tsx:23-28 | The complaint becomes the old text, a space and the transcript, so the old text stays as a prefix |
| Home.HomeScreen.ToggleAnonymous | pages/HomePage.tsx:116 | Anonymous mode flips |
| Home.HomeScreen.SubmitComplaint | pages/HomePage.tsx:49-53 | A whitespace-only complaint is refused and kept. Otherwise the notice names the user (or says "Anonymously") and the complaint is cleared |
| Health.RegionName | pages/HealthPage.tsx:36-39 | Every region button's label is one of the four listed regions |
| Health.RegionNamesDistinct | pages/HealthPage.tsx:36-39 | Two buttons set the same label exactly when they are the same button |
| Health.HealthScreen.constructor | pages/HealthPage.tsx:5-8 | The log starts empty with region "Vaginal" and an empty description; the screen holds no store |
| Health.HealthScreen.SelectRegion | pages/HealthPage.tsx:36-39 | The region becomes the chosen one, one of the four |
| Health.HealthScreen.DescInput | pages/HealthPage.tsx:52 | The description becomes the typed text |
| Health.HealthScreen.AddLog | pages/HealthPage.tsx:10-15 | An empty description adds nothing. Otherwise the new entry is first, the older entries follow in order, and the description is cleared |
| Particles.NewParticle | components/FloatingParticles.tsx:9-15 | The new particle has the current time as its id, left in [0, 100), duration in [5, 15) and size in [15, 35); it is a heart exactly when the third draw is above 0.5 |
| Particles.LastKept | components/FloatingParticles.tsx:16 | `slice(-15)` is the last fifteen elements, or all of them when there are fewer |
| Particles.Slide | components/FloatingParticles.tsx:16 | After a tick the buffer has at most sixteen particles. The new particle is last, preceded by the newest particles of the old buffer in order; nothing is dropped from a buffer of fifteen or fewer |
| Particles.Newest | components/FloatingParticles.tsx:16 | The newest sixteen elements, or all of them when there are fewer |
| Particles.RunKeepsNewest | components/FloatingParticles.tsx:16 | Any run of ticks from a buffer of at most sixteen ends with the newest sixteen of all particles seen |
| Particles.RunFromEmpty | components/FloatingParticles.tsx:5-16 | From the empty start, the buffer holds the last particles created, at most sixteen, and all of them while there are sixteen or fewer |
| Particles.ParticleField.constructor | components/FloatingParticles.tsx:5 | The buffer starts empty |
| Particles.ParticleField.Tick | components/FloatingParticles.tsx:8-17 | The buffer takes one slide of the new particle and stays within sixteen |

## Left out

- **The rest of the application stays outside the model, with reasons:**
  - `services/geminiService.ts`: a wrapper over an external AI client whose code is not part of this model. Its results enter as parameters (`ReceiveReply`, `ReceiveAnalysis`, `FinishGenerate`), including its fixed fallbacks and `null` on failure.
  - The static, upload and drawing pages: they do not touch the shared state.
  - `constants.tsx` beyond the navigation ids and `types.ts` beyond the profile record: both are data only.
- **Browser effects are parameters or are omitted:**
  - Alerts, and the `tel:` navigation of SOS.
  - Geolocation sharing.
  - Scrolling, and the theme's DOM class.
  - Speech-recognition start and stop (only the result callbacks are modelled).
  - The `FileReader` (its data URL is a parameter of `PhotoInput`).
  - The `setInterval` timers (one tick is one method call).
  - `sessionStorage.clear()` at logout (no modelled state lives there).
- **Serialisation:** documents are stored decoded, with `Unparseable` for a text that `JSON.parse` rejects.
  - The startup parse is guarded, and `Session.LoadUser` handles every case.
  - The parses at pages/RegistrationPage.tsx:59 and pages/TrackerPage.tsx:12-16 are not guarded, and a corrupt value throws there. The model states what those parses need as preconditions: `Registration.SignInReadable` for sign-in and `Records.TrackerReadable` for the tracker. Each lets a key be absent, hold the empty string (which the `if (saved)` and `saved ? … : []` tests treat as absent), or hold a document that parses.
  - `Records.TraumaReadable`: the chat and the report builder read the narrative key as raw text. A decoded document keeps no raw text, so these readers require the key to hold text. Only text is ever written there (pages/AssistantPage.tsx:62).
- **Reloads:**
  - `window.location.reload()` after logout is modelled as the shell starting over from the emptied store.
  - The reload after the archive wipe calls the same `Session.App.Reload`. The settings form is discarded by that reload, and the model leaves the unmounted screen's fields as they were.
- `Registration.RegistrationScreen.PhotoInput`: at pages/RegistrationPage.tsx:48 the `FileReader` callback spreads the form from the render in which the file was chosen. A field typed while the file loads is therefore overwritten, in the source, when the load finishes. The model applies the photo to the current form, so it keeps such edits.
- **Asynchronous ordering:** concurrency between the awaited replies and later input is not modelled. Each send or report request completes before the next one begins.
- **Strings:**
  - JavaScript measures string length in UTF-16 code units; the model counts Unicode scalar values. They differ only for characters outside the Basic Multilingual Plane, which affects the 40-character analysis threshold and the digit caps.
  - `Strings.UpperAscii`: upper-cases ASCII letters only. `toUpperCase` also maps non-ASCII letters, and the model does not.
  - `Registration.Submit`: the browser's form validation runs before `handleSubmit` and is not modelled. It has the `required` attributes at pages/RegistrationPage.tsx:129, 166, 170, 190, 208, 218, 238 and 239, and `type="email"` at line 170. The model's submit can therefore complete with an empty name, email or contact, which the browser would have blocked.
  - The `maxLength={10}` attribute of the PAN input is a browser-side limit and is not modelled.
- **Types:**
  - `Registration.RegistrationScreen.AgeInput`: `parseInt` can give `NaN`, which an `int` cannot hold. The parsed value is a parameter.
  - `Wellness.Award`: the `points || 0` and `badges || []` fallbacks are not modelled. The profile record always has both fields (types.ts:19-20).
  - The profile's `privacySettings` is an `Option`, because pages/SettingsPage.tsx:24 handles it missing even though types.ts:22 declares it required. The chat screen reads it without a guard (pages/AssistantPage.tsx:16), so `Assistant.AssistantScreen.constructor` requires it.
  - Particle sizes and positions are reals. The animation that renders them is not modelled.
- **`Health`:** pages/HealthPage.tsx is not reachable from the shell's routing, and it is modelled as a stand-alone screen.
