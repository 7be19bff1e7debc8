# Medicine reminder app: a Dafny model of its client-side rules

The app is a React front end for keeping track of medicines, medical history and a user
profile. This project models the decisions it takes on the client:

- the background reminder that raises "missed", "due" and "Medicine Due" notifications and
  records "Take Now";
- the schedule page's choice of the active medicine;
- a medicine card's status icon, its "Mark as Taken" button and the picture chosen for it;
- the four record forms (medicine, allergy, surgery, condition): their checks, payloads and prefills;
- the home page's greeting;
- the auth-key clean-up of browser storage and the `useAuth` guard;
- the sign-in / sign-up checks and the redirect after sign-in;
- the profile-completion schema, prefill and update.

Time of day is a number of seconds since local midnight (`Clock.SecondOfDay`). A scheduled
`HH:MM` string stands for the instant `h*3600 + m*60` of the current day. Strings are
`seq<char>`, and `trim`, `toLowerCase` and `includes` are written out over ASCII in `Text`.
JavaScript truthiness of a record column (`x || ''`) is `Common.Truthy` / `Common.OrEmpty`.

Where the code keeps state in place, the model is a class whose methods are proved against
pure functions:

- `MedicineReminder.Reminder` holds the three id-sets `checked`, `missed` and `taken`.
  - `Tick` loops over the medicines like the source's `forEach`. It is proved to return
    `TickEvents` and leave `TickState`.
  - Every "Take Now" action is proved to leave `AfterTake`. The "Medicine Due" toast of the
    mount check has the same action as the due toast, so `TakeFromDue` models both.
  - Lemmas about `TickEvents`, `MountEvents` and `Run` state the notification rules. `Run` is
    any sequence of ticks, mount checks and "Take Now" actions between two resets.
- Each form's `Validate` fills a fresh error record check by check (the condition form's has
  one check). It is proved to equal the pure `ErrorsFor`, and each form's `ValidIff`
  characterises the empty record.
- `AuthContext.RemoveAuthKeys` removes keys from a store in a loop over a snapshot of its keys.
  It is proved to leave `WithoutAuthKeys` of the old contents.

## Model

| member | source | states |
|---|---|---|
| Common.OrEmpty | src/components/MedicineForm.tsx:27-30 | `column \|\| ''` is the column when it is truthy and "" exactly when it is not |
| Text.Trim | src/components/MedicineForm.tsx:37 | `trim()` gives a slice of the string with only whitespace before and after it; it is "" exactly when every character is whitespace, and otherwise starts and ends with a non-space |
| Text.ToLower | src/components/MedicineCard.tsx:45 | `toLowerCase()` keeps the length and lowers each character |
| Text.ContainsIff | src/components/MedicineCard.tsx:81 | `includes` holds exactly when the key occurs at some position of the name |
| Clock.FormatHHMM | src/components/MedicineReminder.tsx:38 | now's label is five characters with a colon in the middle; it is itself an accepted time, and its instant is the start of the current minute |
| Clock.ScheduledSec | src/components/MedicineReminder.tsx:44-46 | the scheduled instant of a time is a whole minute of the current day |
| Clock.FormatScheduled | src/components/MedicineReminder.tsx:38 | formatting a padded time's instant gives the time back; an unpadded time comes back with a leading zero |
| Clock.LabelMatchIff | src/components/MedicineReminder.tsx:105 | a time equals now's label exactly when it is zero-padded and now lies in its minute |
| Clock.TimePatternExamples | src/components/MedicineForm.tsx:49-50 | the pattern accepts "8:00", "08:00", "23:59" and "0:05" and rejects "24:00", "7:60", " 08:00" and "08:00 " |
| Clock.TimeIsNotBlank | src/components/MedicineForm.tsx:45-50 | an accepted time is never blank, so the pattern is only consulted on non-blank times |
| MedicineReminder.Reminder.constructor | src/components/MedicineReminder.tsx:21-23 | the three sets start empty |
| MedicineReminder.Reminder.Reset | src/components/MedicineReminder.tsx:25-30 | a new medicines list empties `checked`, `missed` and `taken` |
| MedicineReminder.Reminder.Tick | src/components/MedicineReminder.tsx:34-152 | the tick raises exactly `TickEvents` on the sets from before the tick and leaves `TickState`; it returns at once on an empty list |
| MedicineReminder.Reminder.TickMedicine | src/components/MedicineReminder.tsx:40-151 | one medicine's step adds its missed id to `missed` and its due id to `checked`; `taken` is unchanged |
| MedicineReminder.Reminder.MountCheck | src/components/MedicineReminder.tsx:156-210 | the mount check raises exactly `MountEvents` and changes no set |
| MedicineReminder.Reminder.TakeFromMissed | src/components/MedicineReminder.tsx:71-97 | with a callback, the medicine is passed to it, its id joins `taken` and leaves `missed`, and a confirmation is raised; without one, nothing happens |
| MedicineReminder.Reminder.TakeFromDue | src/components/MedicineReminder.tsx:126-147 | the same for the due toast (and for the mount toast, lines 183-203), except that `missed` is unchanged |
| MedicineReminder.IdsOfTickOne | src/components/MedicineReminder.tsx:49-57 | one medicine's step raises at most its own missed and due notifications |
| MedicineReminder.InTickEvents | src/components/MedicineReminder.tsx:40 | a tick raises a notification exactly when one medicine's step raises it |
| MedicineReminder.InMountEvents | src/components/MedicineReminder.tsx:159 | a mount check raises a notification exactly when one medicine's step raises it |
| MedicineReminder.MissedNotifiedIff | src/components/MedicineReminder.tsx:42-57 | a missed notification for an id is raised, and the id joins `missed`, exactly when a medicine with that id was scheduled before now and was in none of the three sets before the tick |
| MedicineReminder.DueFiresIff | src/components/MedicineReminder.tsx:105 | a medicine is due exactly when it is not taken, its time is zero-padded and now lies in its minute (the label is built at line 38); "8:00" is never due |
| MedicineReminder.DueNotifiedIff | src/components/MedicineReminder.tsx:105-111 | a due notification for an id is raised, and the id joins `checked`, exactly when a medicine with that id is due |
| MedicineReminder.DueRepeatsWithinMinute | src/components/MedicineReminder.tsx:105 | `checked` does not guard the due branch, so a second tick in the same minute repeats it |
| MedicineReminder.MissedAndDueInOneTick | src/components/MedicineReminder.tsx:49-111 | both branches read the sets from before the tick, so a fresh medicine ticked during its own minute gets both notifications |
| MedicineReminder.MountFiresIff | src/components/MedicineReminder.tsx:166-170 | the mount check fires for a medicine that is neither taken nor checked, from its scheduled instant up to eleven minutes after it |
| MedicineReminder.EmptyTickIsQuiet | src/components/MedicineReminder.tsx:35 | a tick over an empty list raises nothing and changes no set |
| MedicineReminder.TakenIsSilent | src/components/MedicineReminder.tsx:42 | a taken medicine gets no notification from a tick or from the mount check (the mount check skips it at line 160) |
| MedicineReminder.MissedCountOne | src/components/MedicineReminder.tsx:51-57 | one medicine's step raises its missed notification at most once |
| MedicineReminder.MissedOncePerTick | src/components/MedicineReminder.tsx:40-57 | with distinct ids, one tick raises at most one missed notification per id |
| MedicineReminder.StepKeepsGuard | src/components/MedicineReminder.tsx:51-85 | once an id is missed or taken, no step raises a missed notification for it, and it stays missed or taken |
| MedicineReminder.StepGuardsMissed | src/components/MedicineReminder.tsx:51-57 | with distinct ids, a step raises at most one missed notification per id, and raising it makes the id missed |
| MedicineReminder.MissedAtMostOnce | src/components/MedicineReminder.tsx:25-57 | with distinct ids, between two resets, any sequence of ticks, mount checks and "Take Now" actions raises at most one missed notification per id, and none for an id already missed or taken |
| MedicineReminder.TakenStaysSilent | src/components/MedicineReminder.tsx:42 | between resets a taken id stays taken, and its only notifications are "Take Now" confirmations (taking is at lines 75-79, the mount check skips it at line 160) |
| MedicinesPage.InWindowIff | src/pages/MedicinesPage.tsx:75-82 | a medicine is in the window exactly when now lies strictly within 960 seconds of its scheduled instant |
| MedicinesPage.WindowSymmetric | src/pages/MedicinesPage.tsx:79-82 | the window reaches as far before the scheduled instant as after it |
| MedicinesPage.NoWrapAtMidnight | src/pages/MedicinesPage.tsx:75-76 | a 23:55 dose is not active at 00:05, because the instant is placed on the current day |
| MedicinesPage.FindActive | src/pages/MedicinesPage.tsx:73-83 | `find` returns the first medicine in list order that is in the window, or none when no medicine is |
| MedicinesPage.ActiveId | src/pages/MedicinesPage.tsx:85 | the active id is the id of the first medicine in the window when that id is non-empty; it is none exactly when every first-in-window medicine has the empty id (or none is in the window) |
| MedicinesPage.ActiveCardIff | src/pages/MedicinesPage.tsx:85 | with distinct non-empty ids, a card is active exactly when its medicine is the first in the window, so at most one card is active (the card flag is set at line 126) |
| MedicinesPage.Page.constructor | src/pages/MedicinesPage.tsx:55-86 | the first render selects the active id for the list and the clock |
| MedicinesPage.Page.ClockTick | src/pages/MedicinesPage.tsx:60-86 | each minute the clock is resampled and the active id recomputed; the list is unchanged |
| MedicinesPage.Page.IsActive | src/pages/MedicinesPage.tsx:126 | on a consistent page a card is active exactly when its id is non-empty and is the id of the first medicine in the window |
| MedicineCard.StatusFor | src/components/MedicineCard.tsx:109-125 | taken wins over active, active over overdue, overdue (scheduled before now) over upcoming; each icon's exact condition |
| MedicineCard.ChosenImageUnique | src/components/MedicineCard.tsx:80-89 | a name determines its picture |
| MedicineCard.FindImage | src/components/MedicineCard.tsx:80-89 | the lookup picks the picture of the first key, in declaration order, contained in the name, or the general pill when none is |
| MedicineCard.Card.constructor | src/components/MedicineCard.tsx:33-36 | a card starts not taken, loading, with the placeholder picture |
| MedicineCard.Card.FetchMedicineImage | src/components/MedicineCard.tsx:38-100 | nothing happens for an empty name or after an image error; otherwise the picture is chosen for the name lower-cased and then trimmed, and loading ends |
| MedicineCard.Card.ImageFailed | src/components/MedicineCard.tsx:93-94 | after an image failure the card shows the placeholder and fetches no more |
| MedicineCard.Card.HandleTakeMedicine | src/components/MedicineCard.tsx:102-107 | the card becomes taken, and the callback is called exactly when one is given |
| MedicineCard.Card.ClickTakeButton | src/components/MedicineCard.tsx:102-107 | the button is disabled once taken, so the callback fires at most once (the button is disabled at line 197) |
| MedicineForm.ErrorsFor | src/components/MedicineForm.tsx:34-57 | name and dosage are reported when blank; time is reported "required" when blank and "must be in 24-hour format" when it fails the pattern untrimmed; the description never is |
| MedicineForm.ValidIff | src/components/MedicineForm.tsx:34-57 | the form is valid exactly when name and dosage are not blank and the time matches the pattern |
| MedicineForm.TimeMessageExamples | src/components/MedicineForm.tsx:45-52 | " 8:00" gets the format message and a blank time the "required" message |
| MedicineForm.Prefilled | src/components/MedicineForm.tsx:25-32 | editing copies each column of the medicine, missing ones as "" |
| MedicineForm.PrefillRoundTrip | src/components/MedicineForm.tsx:25-32 | editing a saved medicine shows exactly what was saved (the payload is built at lines 63-68) |
| MedicineForm.Form.constructor | src/components/MedicineForm.tsx:18-22 | all fields start empty, with no errors |
| MedicineForm.Form.Prefill | src/components/MedicineForm.tsx:25-32 | the fields become `Prefilled`; the errors are kept |
| MedicineForm.Form.Validate | src/components/MedicineForm.tsx:34-57 | the stored errors are `ErrorsFor` the fields, and the result says whether there are none |
| MedicineForm.Form.HandleSubmit | src/components/MedicineForm.tsx:59-70 | `onSave` receives the four fields untrimmed exactly when the form is valid |
| AllergyForm.ErrorsFor | src/components/AllergyForm.tsx:39-52 | a blank name is reported; the severity is reported only when it is the empty string; symptoms never are |
| AllergyForm.ValidIff | src/components/AllergyForm.tsx:39-52 | the form is valid exactly when the name is not blank and a severity is chosen |
| AllergyForm.SeverityNotTrimmed | src/components/AllergyForm.tsx:42-48 | a severity of one space passes where the same name would not |
| AllergyForm.Prefilled | src/components/AllergyForm.tsx:31-37 | editing copies each column of the allergy, missing ones as "" |
| AllergyForm.PrefillRoundTrip | src/components/AllergyForm.tsx:31-62 | editing a saved allergy shows exactly what was saved |
| AllergyForm.Form.constructor | src/components/AllergyForm.tsx:25-28 | all fields start empty, with no errors |
| AllergyForm.Form.Prefill | src/components/AllergyForm.tsx:31-37 | the fields become `Prefilled`; the errors are kept |
| AllergyForm.Form.Validate | src/components/AllergyForm.tsx:39-52 | the stored errors are `ErrorsFor` the fields, and the result says whether there are none |
| AllergyForm.Form.HandleSubmit | src/components/AllergyForm.tsx:54-64 | `onSave` receives name, severity and symptoms as typed exactly when the form is valid |
| SurgeryForm.ErrorsFor | src/components/SurgeryForm.tsx:36-49 | a blank name and a blank date are reported, with no date format check; hospital, doctor and notes never are |
| SurgeryForm.ValidIff | src/components/SurgeryForm.tsx:36-49 | the form is valid exactly when neither the name nor the date is blank |
| SurgeryForm.Prefilled | src/components/SurgeryForm.tsx:26-34 | editing copies each column of the surgery, missing ones as "" |
| SurgeryForm.PrefillRoundTrip | src/components/SurgeryForm.tsx:26-61 | editing a saved surgery shows exactly what was saved |
| SurgeryForm.Form.constructor | src/components/SurgeryForm.tsx:18-23 | all fields start empty, with no errors |
| SurgeryForm.Form.Prefill | src/components/SurgeryForm.tsx:26-34 | the fields become `Prefilled`; the errors are kept |
| SurgeryForm.Form.Validate | src/components/SurgeryForm.tsx:36-49 | the stored errors are `ErrorsFor` the fields, and the result says whether there are none |
| SurgeryForm.Form.HandleSubmit | src/components/SurgeryForm.tsx:51-63 | `onSave` receives the five fields as typed exactly when the form is valid |
| ConditionForm.ErrorsFor | src/components/ConditionForm.tsx:32-41 | only a blank name is reported |
| ConditionForm.ValidIff | src/components/ConditionForm.tsx:32-41 | the form is valid exactly when the name is not blank; the date and description never block saving |
| ConditionForm.Payload | src/components/ConditionForm.tsx:47-51 | the payload carries the form's `diagnosisDate` under `diagnosis_date` |
| ConditionForm.Prefilled | src/components/ConditionForm.tsx:24-30 | editing reads `diagnosis_date` into `diagnosisDate`, missing columns as "" |
| ConditionForm.PrefillRoundTrip | src/components/ConditionForm.tsx:24-51 | prefilling from a saved payload and submitting unchanged gives the same payload |
| ConditionForm.Form.constructor | src/components/ConditionForm.tsx:18-21 | all fields start empty, with no errors |
| ConditionForm.Form.Prefill | src/components/ConditionForm.tsx:24-30 | the fields become `Prefilled`; the errors are kept |
| ConditionForm.Form.Validate | src/components/ConditionForm.tsx:32-41 | the stored errors are `ErrorsFor` the fields, and the result is true exactly when the name is not blank |
| ConditionForm.Form.HandleSubmit | src/components/ConditionForm.tsx:43-53 | `onSave` receives the renamed payload exactly when the name is not blank |
| IndexPage.Greeting | src/pages/Index.tsx:19-24 | before noon "Good morning", until six "Good afternoon", then "Good evening", each exactly on its range of hours |
| IndexPage.GreetingMonotonic | src/pages/Index.tsx:20-23 | a later hour never gives an earlier greeting |
| IndexPage.DisplayName | src/pages/Index.tsx:64 | the shown name is the first name when there is one and "User" when it is empty |
| IndexPage.DisplayNameUserIff | src/pages/Index.tsx:64 | "User" is shown exactly for an empty first name or one that is literally "User" |
| IndexPage.ShownProfileName | src/pages/Index.tsx:64 | a truthy `first_name` column is shown verbatim, a null or empty one as "User" |
| IndexPage.Home.FetchUserProfile | src/pages/Index.tsx:30-55 | the first name changes only for a signed-in user whose query succeeds with a truthy `first_name`, and the shown name then becomes that name |
| AuthContext.IsAuthKey | src/context/AuthContext.tsx:24 | a key is an auth key exactly when it starts with "supabase.auth." or "sb-" occurs at some position in it |
| AuthContext.WithoutAuthKeys | src/context/AuthContext.tsx:23-27 | the filtered store keeps exactly the keys that are not auth keys, with their values |
| AuthContext.TokenIsAuthKey | src/context/AuthContext.tsx:21-24 | "supabase.auth.token" is itself an auth key |
| AuthContext.TokenRemovalRedundant | src/context/AuthContext.tsx:21-27 | removing the token first makes no difference to the filtered store |
| AuthContext.CleanupIdempotent | src/context/AuthContext.tsx:19-34 | cleaning up a second time changes nothing |
| AuthContext.Storage.RemoveItem | src/context/AuthContext.tsx:25 | `removeItem` drops the key and nothing else |
| AuthContext.RemoveAuthKeys | src/context/AuthContext.tsx:23-27 | the loop over the keys leaves exactly `WithoutAuthKeys` of the old contents |
| AuthContext.CleanupAuthState | src/context/AuthContext.tsx:19-34 | afterwards neither local nor session storage holds an auth key, and every other entry is unchanged |
| AuthContext.UseAuth | src/context/AuthContext.tsx:175-180 | the context is returned when a provider exists; otherwise "useAuth must be used within an AuthProvider" is thrown |
| AuthPage.LoginErrorsFor | src/pages/AuthPage.tsx:67-91 | both fields are checked; each gets its schema message (lines 14-15) exactly when it fails |
| AuthPage.SignupErrorsFor | src/pages/AuthPage.tsx:93-135 | all four fields are checked without short-circuit; each gets its schema message (lines 14-16) exactly when it fails |
| AuthPage.NamesNotTrimmed | src/pages/AuthPage.tsx:16 | a one-space name passes and an empty one gets "Name is required" (the name checks are at lines 115-131) |
| AuthPage.PostLoginRoute | src/pages/AuthPage.tsx:40-65 | "/create-profile" exactly when the query succeeds and neither name column is truthy; "/" otherwise, including on a query error |
| AuthPage.Page.constructor | src/pages/AuthPage.tsx:19-38 | the page starts on the login tab with empty fields and no errors |
| AuthPage.Page.ValidateLoginForm | src/pages/AuthPage.tsx:67-91 | the stored errors are `LoginErrorsFor` the fields; valid exactly when the e-mail is accepted and the password has six characters |
| AuthPage.Page.ValidateSignupForm | src/pages/AuthPage.tsx:93-135 | the stored errors are `SignupErrorsFor` the fields; valid exactly when all four checks pass |
| AuthPage.Page.HandleLogin | src/pages/AuthPage.tsx:137-149 | `signIn` is called with the typed credentials exactly when the login form is valid; loading ends afterwards |
| AuthPage.Page.HandleSignup | src/pages/AuthPage.tsx:151-168 | `signUp` is called exactly when the sign-up form is valid; after it succeeds the login tab is shown |
| ProfileCreation.SchemaErrors | src/pages/ProfileCreationPage.tsx:18-26 | names need one character, phone numbers six, and the avatar URL is free; each failing field gets its message |
| ProfileCreation.SchemaValidIff | src/pages/ProfileCreationPage.tsx:18-26 | the values pass exactly when all six length rules hold |
| ProfileCreation.PrefillValues | src/pages/ProfileCreationPage.tsx:79-89 | each null or empty column prefills as "" |
| ProfileCreation.UpdateFor | src/pages/ProfileCreationPage.tsx:106-115 | each form field is written unchanged to its snake_case column, with the update time |
| ProfileCreation.PrefillRoundTrip | src/pages/ProfileCreationPage.tsx:80-114 | returning after saving prefills exactly the saved values |
| ProfileCreation.ProfileComplete | src/pages/ProfileCreationPage.tsx:72-73 | a profile is complete exactly when the form it prefills has a first or last name, an emergency contact name and a provider name; those two names then pass the schema |
| ProfileCreation.SavedProfileComplete | src/pages/ProfileCreationPage.tsx:18-26 | values that pass the schema make a complete profile once saved (the completeness test is at lines 72-73) |
| ProfileCreation.CompleteRoutesHome | src/pages/ProfileCreationPage.tsx:72-73 | a complete profile also sends a signed-in user home from the sign-in page |
| ProfileCreation.HomeWithoutCompleteProfile | src/pages/ProfileCreationPage.tsx:72-73 | a row with a first name but no emergency contact goes home after sign-in, though this page would not call it complete |
| ProfileCreation.CheckProfile | src/pages/ProfileCreationPage.tsx:50-93 | without a user the page goes to "/auth" and queries nothing; on success it goes home exactly when the profile is complete, and prefills in every case; on a query error it does nothing |
| ProfileCreation.Submit | src/pages/ProfileCreationPage.tsx:98-118 | failing values are rejected with the schema's messages; passing ones are written for a signed-in user only, and then make a complete profile |

## Left out

- Toast rendering, icons, layout and routing: notifications are the abstract events `Missed`, `Due`, `MountDue` and `Taken` with a medicine id, and a navigation is a route string.
- `setInterval` timers and React effect re-runs: ticks, mount checks, resets and clock samples are explicit calls made by the caller. A tick reads the sets as the interval's closure captured them.
- Re-notifying a missed dose on a cadence: the code keeps no per-id timestamp, and the model follows the code.
- Dates and time zones: `Date` is reduced to seconds since local midnight. The millisecond part that `new Date()` adds is not modelled. So at exactly second zero of a dose's minute, the model's missed test (strictly before now) may differ from the source by that jitter. The schedule page copies the milliseconds of `now` into the scheduled instant, so its window is exact.
- MedicineReminder.MountFiresIff: the mount check builds the scheduled instant from a `Date` taken after `now`, so its `Math.floor(diffMs / 60000)` sees a few milliseconds of jitter. At the scheduled second the source can compute -1 and stay silent where the model fires. 660 seconds after it, the source can compute 10 and fire where the model is silent. The same holds for MedicineReminder.Reminder.MountCheck.
- MedicineCard.StatusFor: the overdue test compares milliseconds. During the scheduled second itself the source shows the overdue icon once any millisecond has passed, while the model, in whole seconds, shows upcoming.
- MedicineReminder.Reminder.Tick: requires every medicine's time to match the form's `HH:MM` pattern (`Clock.IsTime`). The source does not check this. A time without a numeric hour or minute gives `NaN` comparisons. Times such as "24:00", "7:60", "08:00:00" or " 8:00" do parse to numbers, and `setHours` rolls them over into the next day or hour or ignores the extra part. Neither case is modelled. The same precondition is on MountCheck, MedicinesPage.FindActive and MedicineCard.StatusFor.
- MedicineReminder.MissedAtMostOnce: holds only for distinct medicine ids, which it requires, as do StepGuardsMissed and MissedOncePerTick. The source does not enforce distinct ids. With two medicines sharing an id, one tick raises that id's missed notification twice, because both iterations read the sets from before the tick.
- AuthPage.PasswordOk: the schema's `min(6)` counts UTF-16 code units, while the model counts characters. A character outside the Basic Multilingual Plane counts twice in the source and once here.
- AuthPage.NameOk: the same for `min(1)`; the two agree on whether a name is empty. AuthPage.LoginErrorsFor and AuthPage.SignupErrorsFor inherit both differences.
- ProfileCreation.SchemaErrors: the same for the `min(1)` and `min(6)` rules. Only the phone numbers' six-unit minimum can differ.
- The e-mail check of the schema library: it is a parameter `isEmail` of the auth page's checks.
- Unicode: `trim` and `toLowerCase` are modelled over ASCII only.
- All Supabase calls (sign-in, sign-up, sign-out, profile queries and updates): only the decision taken on their outcome is modelled. A query result is a datatype with an error case, and a sign-up's success is a parameter.
- MedicineCard.Card.FetchMedicineImage: the `catch` branch is not modelled, because nothing inside the lookup can throw.
- AuthContext.CleanupAuthState: `sessionStorage || {}` treats a missing session store as empty. The model always has a session store.
- The loading flags and toasts around the auth and profile submissions, beyond the `isLoading` flag of the auth page.
- The pages with hard-coded sample data only (medical history, settings, profile, entry) and the navigation bar.
