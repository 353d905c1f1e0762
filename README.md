# MediGuard medication reminders, modelled in Dafny

MediGuard is a React and Firebase application. Users record their
treatments: a medicine, a number of doses per day, one `HH:MM` time per
dose, and a date range. A pharmacist can add treatments for a user found by
phone number. An admin can promote users. While the app is open, a
per-minute check reminds the user of every treatment due in the current
minute. This project models the decision logic behind that:

- **The reminder loops.**
  - The `useNotifications` hook (`UseNotifications`) is a class holding the
    treatment list fed by the live query, the stored preference, whether the
    interval is armed, the intervals leaked by a crashed effect, and a log of
    every `sendNotification` call.
  - The drifted copy in `NotificationSystem` (`NotificationSystem`) has no
    preference gate and no immediate check. Its permission policy has three
    branches, including request-then-show.
  - Both are specified by a pure `Evaluate` over the list and the current
    `HH:MM` string (`Clock`).
- **Notification onboarding.**
  - The dialog (`NotificationPermission`) and the older snackbar
    (`NotificationManager`) are classes. They record the merged writes to
    the user's document and the notices they show.
  - `Common.PreferenceAfter` gives the stored `notificationsEnabled` after
    any run of writes.
  - The push helpers (`PushNotifications`) cover the VAPID key conversion
    from the URL-safe alphabet of RFC 4648 section 5 to the standard
    alphabet of RFC 4648 section 4 with `=` padding, the byte loop, the no-user
    guards and the relay guard.
- **The forms.**
  - `TreatmentForm` holds the state and the handlers shared by
    `AddTreatment` and `EditTreatmentDialog`.
  - `AddTreatment`, `LegacyAddTreatment` (`ecomponents/AddTreatment`),
    `EditTreatmentDialog`, `PharmacistDashboard`, `Treatments` and
    `AdminDashboard` cover the submit guards, point updates, appends,
    deletes, the merge record, and the resets.
  - `Seqs` holds the copy-then-assign method and the filter the forms use.
- **Validators and derived state.**
  - `ProfileSetup` has the JavaScript `trim`, `split(' ')` and the
    full-name check.
  - `UseAuth` is the auth record, overwritten on every auth event.
  - `FieldNames` states which reminder loop can see which writer's
    documents.

Firebase reads are parameters (the fetched document, whether a write
succeeded). Writes are `Common.UserWrite` records, returned or appended to a
log. Timers are explicit `Tick` calls. "Now" is an hour and a minute rendered
by `Clock.FormatHHMM`. The browser permission and the result of
`Notification.requestPermission` are inputs. `window.atob` is a parameter of
type `string -> Option<string>`, where `None` means it throws.

Five behaviours of the code are worth stating because they are easy to
miss:

- **Snapshots.** Every snapshot sets a new array in state, so the reminder
  effect re-runs and its immediate check runs again. An identical snapshot
  delivered twice in the same minute therefore sends the reminder twice
  (`UseNotifications.ScenarioRepeatedSnapshot`).
- **Duplicate times.** A time repeated within one treatment fires once per
  tick, because the check uses `includes`
  (`UseNotifications.EvaluateOne`).
- **A treatment without `times`.** The check throws on it. When that
  happens in the immediate check of the reminder effect, the interval just
  set leaks and keeps reminding, every minute, of the treatments listed
  before it, even after the tree is torn down
  (`UseNotifications.ScenarioLeakedInterval`).
- **When the app-level hook runs.** `NotificationHandler` (src/App.tsx:15-18,
  mounted at :35 on every route, `/login` included) reads `auth.currentUser`
  once, in an effect that never re-runs (src/hooks/useNotifications.ts:15-16,
  46). `Login` signs in and navigates without a reload
  (src/components/Login.tsx:66-73, 80-81), so after a sign-in within the session that
  instance stays without a user and never subscribes
  (`UseNotifications.ScenarioNoUser`). Reminders then come only from the
  second hook the add-treatment page mounts for its test button
  (src/components/AddTreatment.tsx:49), and only while that page is open.
- **Two hooks on one page.** Only when the app loads with a session already
  restored before the handler's first effect runs do both instances have a
  user. Then, on `/add-treatment`, each has its own subscription and
  interval, and every due reminder is sent twice a minute. The model
  describes one `UseNotifications.ReminderHook`; two such objects side by
  side behave as two independent instances.

## Model

| member | source | states |
|---|---|---|
| `Common.PreferenceAfter` | src/components/NotificationPermission.tsx:31-40 | The merged `notificationsEnabled` is either the stored value or a value one of the writes set for that user |
| `Common.PreferenceAfterIgnoresOthers` | src/utils/pushNotifications.ts:53-55 | Writes to other users, and writes of other fields such as `pushSubscription`, leave the preference as stored |
| `Common.PreferenceAfterAppend` | src/components/NotificationPermission.tsx:29-41 | Merges apply left to right: later writes see the result of earlier ones |
| `Common.LastPreferenceWriteWins` | src/ecomponents/NotificationManager.tsx:30-32 | The last preference write decides the stored value, whatever was stored or written before |
| `Clock.DigitChar` | src/hooks/useNotifications.ts:56 | The character for a digit 0..9 is a digit of that value |
| `Clock.Pad2` | src/hooks/useNotifications.ts:56 | `'2-digit'` rendering is two digits whose value is the number |
| `Clock.FormatHHMM` | src/hooks/useNotifications.ts:56 | The 24-hour rendering of now is five characters: two digits, `:` and two digits |
| `Clock.DigitRoundTrip` | src/hooks/useNotifications.ts:56 | Reading a digit and writing it back gives the same character |
| `Clock.FormatThenParse` | src/hooks/useNotifications.ts:56 | Parsing a rendered time gives back its hour and minute |
| `Clock.ParseThenFormat` | src/components/NotificationSystem.tsx:37 | Every canonical `HH:MM` string is the rendering of the time it denotes, so stored times of that shape are reachable by some tick |
| `Clock.FormatInjective` | src/hooks/useNotifications.ts:56-61 | Two ticks compare equal strings exactly when they fall in the same minute |
| `Clock.MidnightBoundary` | src/hooks/useNotifications.ts:56 | The abstract formatter `Clock.FormatHHMM` renders `"00:00"` exactly at midnight and never `"24:00"` or unpadded `"0:0"`; this is a property of the model's formatter, not a claim about every engine's `toLocaleTimeString` |
| `Seqs.SetAt` | src/components/AddTreatment.tsx:57-61 | The copy has the same length, the new value at the index, and every other entry unchanged |
| `Seqs.EmptyTimes` | src/components/AddTreatment.tsx:54 | `Array(n).fill('')` is exactly n empty strings |
| `Seqs.Without` | src/components/Treatments.tsx:56 | The filter keeps every element that is not dropped, and only such elements from the input |
| `Seqs.WithoutAppend` | src/components/Treatments.tsx:56 | Filtering a concatenation filters each part, so the kept entries stay in order |
| `Seqs.WithoutNothingDropped` | src/components/Treatments.tsx:56 | When nothing matches, the filter returns the list unchanged |
| `Seqs.WithoutIdempotent` | src/components/AdminDashboard.tsx:38 | Filtering twice is filtering once |
| `UseNotifications.Matches` | src/hooks/useNotifications.ts:61 | `times.includes(now)` holds exactly when now is an element of times |
| `UseNotifications.SendNotification` | src/hooks/useNotifications.ts:74-80 | A call carries its notice and shows it exactly when permission is 'granted' |
| `UseNotifications.Evaluate` | src/hooks/useNotifications.ts:59-65 | One check sends at most one reminder per treatment, and nothing past a treatment without `times` |
| `UseNotifications.EvaluateOne` | src/hooks/useNotifications.ts:61-64 | A treatment yields one reminder exactly when now is among its times, however often it is repeated there; dates play no part |
| `UseNotifications.EvaluateAppend` | src/hooks/useNotifications.ts:59-65 | Treatments are checked in list order; one without `times` throws and ends the check |
| `UseNotifications.EvaluateSound` | src/hooks/useNotifications.ts:59-80 | Every reminder is titled "Medication Reminder", names a treatment whose times include now, and is shown exactly when permission is 'granted' |
| `UseNotifications.EvaluateComplete` | src/hooks/useNotifications.ts:59-64 | Every treatment whose times include now, and that is listed before any treatment without `times`, gets its reminder |
| `UseNotifications.EvaluateNoMatch` | src/hooks/useNotifications.ts:59-65 | When no time matches, nothing is sent |
| `UseNotifications.EvaluateAll` | src/hooks/useNotifications.ts:68 | Leaked intervals firing in one minute dispatch nothing when none is leaked; otherwise each list's check, in order |
| `UseNotifications.ReminderHook.constructor` | src/hooks/useNotifications.ts:12-13 | The hook starts with no treatments, the preference off, no interval, no leaked interval and no dispatches |
| `UseNotifications.ReminderHook.Mount` | src/hooks/useNotifications.ts:15-46 | With no current user nothing is subscribed or read; with one, the preference read starts and the feed is subscribed |
| `UseNotifications.ReminderHook.RunCheck` | src/hooks/useNotifications.ts:54-66 | The loop appends exactly `Evaluate` of the list at the rendered time, and completes exactly when no treatment lacks `times` (otherwise `treatment.times.join` throws) |
| `UseNotifications.ReminderHook.Rearm` | src/hooks/useNotifications.ts:48-72 | Re-running the effect clears the old interval; when enabled it sets a new one and checks once at once. If that check throws, the new interval leaks with the current list, no cleanup is registered, and the tree is torn down: the feed is unsubscribed and a pending read is dropped |
| `UseNotifications.ReminderHook.OnPreferenceLoaded` | src/hooks/useNotifications.ts:22-27 | A missing or false preference counts as off; the effect re-runs, as in `Rearm`, only when the value changes; an answer arriving after teardown changes nothing |
| `UseNotifications.ReminderHook.OnSnapshot` | src/hooks/useNotifications.ts:36-42 | A snapshot replaces the whole list and re-runs the reminder effect as in `Rearm`, including the leak when its check throws; after teardown it changes nothing |
| `UseNotifications.ReminderHook.Tick` | src/hooks/useNotifications.ts:68 | A minute passes: the armed interval checks the current list and every leaked interval checks the list it closed over; with the preference off and nothing leaked nothing is sent |
| `UseNotifications.ReminderHook.Unmount` | src/hooks/useNotifications.ts:45-71 | Teardown unsubscribes the feed, clears the armed interval and drops the pending preference read; a leaked interval has no cleanup and stays |
| `UseNotifications.ReminderHook.TestNotification` | src/hooks/useNotifications.ts:83-86 | The test notice passes through the same permission gate |
| `UseNotifications.AspirinMinutes` | src/hooks/useNotifications.ts:59-64 | A treatment due at 08:00 fires in that minute and not at 07:59 or 08:01 |
| `UseNotifications.ScenarioReminderWindow` | src/hooks/useNotifications.ts:54-72 | With reminders on and permission granted, the 08:00 tick sends one Aspirin reminder and the 08:01 tick none |
| `UseNotifications.ScenarioDisabled` | src/hooks/useNotifications.ts:48-52 | With the stored preference off or missing, nothing is sent, in any minute |
| `UseNotifications.ScenarioDenied` | src/hooks/useNotifications.ts:74-80 | With permission denied, the matching tick calls `sendNotification` once and nothing is shown |
| `UseNotifications.ScenarioRemoved` | src/hooks/useNotifications.ts:36-42 | A snapshot without the treatment silences it: no later tick sends anything, in any minute |
| `UseNotifications.ScenarioRepeatedSnapshot` | src/hooks/useNotifications.ts:68-72 | The same snapshot delivered twice in the 08:00 minute sends the reminder twice |
| `UseNotifications.ScenarioTeardown` | src/hooks/useNotifications.ts:25-45 | After teardown nothing is sent in any minute, whether the preference read answered before teardown or only after it |
| `UseNotifications.LeakedAspirin` | src/hooks/useNotifications.ts:59-65 | A list of Aspirin then a treatment without `times` sends nothing at 07:00 and the Aspirin reminder at 08:00 |
| `UseNotifications.ScenarioLeakedInterval` | src/hooks/useNotifications.ts:48-72 | A snapshot with a treatment without `times` after Aspirin crashes the immediate check; the leaked interval still reminds of Aspirin at 08:00 after teardown |
| `UseNotifications.ScenarioNoUser` | src/hooks/useNotifications.ts:16-20 | With no signed-in user nothing is subscribed and nothing is sent, in any minute |
| `NotificationSystem.ShowNotification` | src/components/NotificationSystem.tsx:51-67 | "MediGuard Reminder" is shown if permission is granted, or if it is undecided and the request grants it; a granted permission shows exactly one notice; permission is requested exactly when undecided, and before any notice; at most two effects; denied or no API does nothing |
| `NotificationSystem.Evaluate` | src/components/NotificationSystem.tsx:35-44 | One check over the list; without the Notification API it does nothing |
| `NotificationSystem.EvaluateOne` | src/components/NotificationSystem.tsx:39-43 | A treatment triggers `showNotification` exactly when now is in its `administrationTimes` |
| `NotificationSystem.EvaluateAppend` | src/components/NotificationSystem.tsx:39-43 | Treatments are checked in order; one without `administrationTimes` ends the check |
| `NotificationSystem.SilentWhenBlocked` | src/components/NotificationSystem.tsx:52-57 | Without the Notification API, or with permission denied, a tick shows and requests nothing |
| `NotificationSystem.EvaluateSound` | src/components/NotificationSystem.tsx:39-64 | Every notice shown is for a treatment whose times include now; requests happen only while permission is undecided |
| `NotificationSystem.ReminderSystem.constructor` | src/components/NotificationSystem.tsx:46 | The interval is set at mount and nothing is checked immediately |
| `NotificationSystem.ReminderSystem.Mount` | src/components/NotificationSystem.tsx:14-32 | The feed is subscribed only when a user is signed in |
| `NotificationSystem.ReminderSystem.OnSnapshot` | src/components/NotificationSystem.tsx:22-28 | A snapshot replaces the list and checks nothing |
| `NotificationSystem.ReminderSystem.Tick` | src/components/NotificationSystem.tsx:35-46 | The loop appends exactly `Evaluate` at the rendered time, with no preference consulted |
| `NotificationSystem.ReminderSystem.Unmount` | src/components/NotificationSystem.tsx:30-48 | Teardown unsubscribes and clears the interval |
| `NotificationSystem.ScenarioFirstCheckWaits` | src/components/NotificationSystem.tsx:34-49 | A snapshot arriving in the 08:00 minute shows nothing until the interval fires |
| `PushNotifications.PaddingLength` | src/utils/pushNotifications.ts:7 | `(4 - len % 4) % 4` lies in 0..3, brings the length to a multiple of 4, and is 0 exactly when the length already is one |
| `PushNotifications.Repeat` | src/utils/pushNotifications.ts:7 | `'='.repeat(n)` is n copies of `=` |
| `PushNotifications.Padded` | src/utils/pushNotifications.ts:8 | The input followed by exactly the padding: a multiple of 4 long |
| `PushNotifications.ReplaceAll` | src/utils/pushNotifications.ts:9-10 | A global one-character replace keeps the length and changes exactly the matching positions |
| `PushNotifications.StandardBase64` | src/utils/pushNotifications.ts:6-10 | Every `-` becomes `+` and every `_` becomes `/`; other characters and the length are kept; the tail is `=` padding |
| `PushNotifications.ToUint8` | src/utils/pushNotifications.ts:16 | Storing a character code into a `Uint8Array` keeps it modulo 256, and codes below 256 unchanged |
| `PushNotifications.UrlBase64ToUint8Array` | src/utils/pushNotifications.ts:12-18 | The byte array has the decoded length, and byte i is the code of character i modulo 256; a failing `atob` gives no array |
| `PushNotifications.UrlSafeRoundTrip` | src/utils/pushNotifications.ts:6-10 | A RFC 4648 section 4 encoding written URL-safe without padding converts back to exactly that encoding |
| `PushNotifications.PaddedShape` | src/utils/pushNotifications.ts:7-10 | A URL-safe key converts to a valid RFC 4648 section 4 shape exactly when its length is not 1 more than a multiple of 4 |
| `PushNotifications.PlaceholderKeyIsMalformed` | src/utils/pushNotifications.ts:4 | The shipped placeholder key, 21 characters long, gets three `=` and is not an RFC 4648 section 4 encoding |
| `PushNotifications.SubscribeWrites` | src/utils/pushNotifications.ts:21-40 | Without a user nothing is written; otherwise the subscription is stored exactly when the key decodes and the push service answers |
| `PushNotifications.SubscribeUserToPush` | src/utils/pushNotifications.ts:21-40 | The conversion then subscription makes exactly those writes |
| `PushNotifications.UnsubscribeUserFromPush` | src/utils/pushNotifications.ts:42-61 | Without a user nothing is written; after the service-worker calls succeed a null subscription is stored |
| `PushNotifications.SubscriptionAfter` | src/utils/pushNotifications.ts:32-34 | The merged `pushSubscription` is the stored one or one a write for that user set |
| `PushNotifications.SendPushNotification` | src/utils/pushNotifications.ts:63-83 | A relay request goes out exactly when the stored subscription is truthy, and carries it with the title and body |
| `PushNotifications.NoRelayAfterUnsubscribe` | src/utils/pushNotifications.ts:53-68 | After unsubscribing, no relay request is sent for the user |
| `NotificationPermission.SettledByLastWrite` | src/components/NotificationPermission.tsx:31-40 | A final preference write settles the stored value whatever was stored before |
| `NotificationPermission.EnableWrites` | src/components/NotificationPermission.tsx:29-41 | When granted: the subscription writes then `true`; otherwise `false` alone; the preference ends as whether it was granted |
| `NotificationPermission.SettledAfterPrefix` | src/components/NotificationPermission.tsx:31-33 | Earlier writes do not change a settled preference |
| `NotificationPermission.PermissionPrompt.constructor` | src/components/NotificationPermission.tsx:8 | The dialog starts closed |
| `NotificationPermission.PermissionPrompt.CheckPermission` | src/components/NotificationPermission.tsx:11-19 | The dialog opens iff a user exists, the stored preference is undefined and permission is 'default' |
| `NotificationPermission.PermissionPrompt.HandleEnable` | src/components/NotificationPermission.tsx:25-44 | Granted: subscribe, store true, confirm; otherwise store false; the dialog closes after the write. A rejected preference write stops the handler: no confirmation, and the dialog stays open |
| `NotificationPermission.PermissionPrompt.HandleDecline` | src/components/NotificationPermission.tsx:46-58 | Decline, and dismissing the dialog, unsubscribe and store false, then close; a rejected write leaves the dialog open |
| `NotificationPermission.AnsweredNeverPrompted` | src/components/NotificationPermission.tsx:16 | Once either answer is stored the dialog never opens again for that user |
| `NotificationPermission.ScenarioAcceptGranted` | src/components/NotificationPermission.tsx:29-36 | A granted enable closes the dialog, stores true and shows the confirmation |
| `NotificationPermission.ScenarioAcceptRefused` | src/components/NotificationPermission.tsx:37-41 | A refused enable stores false and shows nothing |
| `NotificationPermission.ScenarioNoUser` | src/components/NotificationPermission.tsx:13 | With no user the dialog never opens and dismissing it writes nothing |
| `NotificationPermission.ScenarioWriteFails` | src/components/NotificationPermission.tsx:29-43 | A granted enable whose preference write fails leaves the dialog open, confirms nothing and leaves the preference unset |
| `NotificationManager.EnableSnackbar.constructor` | src/ecomponents/NotificationManager.tsx:7 | The snackbar starts hidden |
| `NotificationManager.EnableSnackbar.CheckPermission` | src/ecomponents/NotificationManager.tsx:10-19 | The snackbar opens iff a user exists and the preference is undefined; permission is not checked |
| `NotificationManager.EnableSnackbar.RequestPermission` | src/ecomponents/NotificationManager.tsx:24-40 | The snackbar hides whatever the result; with a user and a successful write, whether it was granted is stored and only a grant is confirmed; a rejected write stores nothing and skips the confirmation; with no user nothing is stored |
| `NotificationManager.SnackbarWiderThanDialog` | src/ecomponents/NotificationManager.tsx:15 | Whenever the dialog opens so does the snackbar, and the snackbar also opens once the browser has decided |
| `NotificationManager.AnsweredNoSnackbar` | src/ecomponents/NotificationManager.tsx:15 | A user who has answered is not offered the snackbar again |
| `NotificationManager.ScenarioRefused` | src/ecomponents/NotificationManager.tsx:24-38 | A refused request hides the snackbar, stores false and shows nothing |
| `NotificationManager.ScenarioWriteFails` | src/ecomponents/NotificationManager.tsx:24-38 | A granted request whose write is rejected hides the snackbar, stores nothing, shows nothing, and leaves the user to be offered the snackbar again |
| `TreatmentForm.HandleFrequencyChange` | src/components/AddTreatment.tsx:51-55 | A frequency change gives exactly n empty times, one per dose, and keeps the other fields; EditTreatmentDialog.tsx:70-74 is the same handler |
| `TreatmentForm.HandleTimeChange` | src/components/AddTreatment.tsx:57-61 | A time change replaces only the one index and keeps the length and one time per dose; EditTreatmentDialog.tsx:76-80 is the same handler |
| `TreatmentForm.AllFilled` | src/components/AddTreatment.tsx:65 | Passing the guard needs a non-empty name and non-empty times; a missing name or date fails it |
| `TreatmentForm.Truncate5` | src/components/AddTreatment.tsx:77 | `slice(0, 5)` is the first five characters, or the whole of a shorter string |
| `TreatmentForm.NormalizeTimes` | src/components/AddTreatment.tsx:77 | Each stored time is at most five characters long and is a prefix of the entered one; short ones are kept as they are |
| `TreatmentForm.TruncateKeepsMinute` | src/components/AddTreatment.tsx:77 | A time entered with seconds is cut back to its `HH:MM` |
| `TreatmentForm.NormalizeIdempotent` | src/components/AddTreatment.tsx:77 | Normalising twice is normalising once |
| `TreatmentForm.NormalizeKeepsFilled` | src/components/AddTreatment.tsx:65-77 | Truncation never empties a filled time |
| `TreatmentForm.StoredTimeFires` | src/components/AddTreatment.tsx:77 | A dose entered as `HH:MM` plus anything is matched by the tick at that minute once stored |
| `AddTreatment.HandleSubmit` | src/components/AddTreatment.tsx:63-93 | Rejected iff the name is empty, a date is missing or a time is empty; rejected without a user; otherwise the stored record has the user's uid, the fields and the truncated times |
| `AddTreatment.InitialRejected` | src/components/AddTreatment.tsx:43-47 | The initial form has one empty time for frequency 1 and cannot be submitted |
| `AddTreatment.AddedTimesFilled` | src/components/AddTreatment.tsx:65-77 | A stored treatment has no empty time and every time is at most five characters |
| `AddTreatment.AddedDoseFires` | src/components/AddTreatment.tsx:77 | A dose entered at a minute is reminded of by the tick at that minute |
| `AddTreatment.ScenarioMorningDose` | src/components/AddTreatment.tsx:51-82 | Entering `08:00:00` for one dose stores `["08:00"]` under the user's uid |
| `LegacyAddTreatment.Submit` | src/ecomponents/AddTreatment.tsx:17-37 | Rejected iff a field is missing or a time is empty; otherwise the fields are stored verbatim |
| `LegacyAddTreatment.HandleSubmit` | src/ecomponents/AddTreatment.tsx:11-22 | Since `times` stays `['']`, every submit is rejected, whatever the user types or picks |
| `LegacyAddTreatment.AcceptedTimesVerbatim` | src/ecomponents/AddTreatment.tsx:25-32 | Were the guard passed with a time longer than five characters, the times would be stored as entered, which differs from what the newer form stores |
| `LegacyAddTreatment.SecondsStoredVerbatim` | src/ecomponents/AddTreatment.tsx:25-32 | A dose entered as `08:00:00` would be stored with its seconds, where the newer form stores `08:00` |
| `EditTreatmentDialog.ToDate` | src/components/EditTreatmentDialog.tsx:55-60 | A stored date becomes seconds times 1000 milliseconds, and a missing one null |
| `EditTreatmentDialog.Defaults` | src/components/EditTreatmentDialog.tsx:52-67 | Name `|| ''`, frequency `|| 1` (never 0), times `|| ['']` (an empty stored array is kept), dates in milliseconds |
| `EditTreatmentDialog.Updated` | src/components/EditTreatmentDialog.tsx:83-90 | The saved record keeps the id, the owner and every other stored field, and overwrites the five edited fields, unchecked and untruncated |
| `EditTreatmentDialog.HandleSave` | src/components/EditTreatmentDialog.tsx:82-100 | `onSave` and `onClose` run exactly when the update succeeds |
| `EditTreatmentDialog.Reread` | src/components/EditTreatmentDialog.tsx:62-68 | A saved record read back has every field present, the other fields as written, and each date as the whole second containing it |
| `EditTreatmentDialog.SaveKeepsOtherFields` | src/components/EditTreatmentDialog.tsx:84 | Saving, re-opening and saving again never drops a field the dialog does not edit |
| `EditTreatmentDialog.ReopenAfterSave` | src/components/EditTreatmentDialog.tsx:52-90 | Re-opening a saved treatment shows the saved form, except that dates lose their sub-second part and frequency 0 comes back as 1 |
| `EditTreatmentDialog.SaveKeepsInconsistency` | src/components/EditTreatmentDialog.tsx:53-54 | A stored frequency 2 with no times opens and saves with no times |
| `EditTreatmentDialog.SaveAllowsEmptyTime` | src/components/EditTreatmentDialog.tsx:54 | A treatment without times saves an empty time that the add form would refuse |
| `PharmacistDashboard.HandleTimeChange` | src/components/PharmacistDashboard.tsx:86-90 | Only index i of `administrationTimes` changes; length and all other fields are kept |
| `PharmacistDashboard.HandleAddTime` | src/components/PharmacistDashboard.tsx:92-97 | One empty time is appended; the prefix and the other fields, frequency included, are kept |
| `PharmacistDashboard.SearchUser` | src/components/PharmacistDashboard.tsx:32-48 | A hit selects the user and lists their treatments; a miss clears both |
| `PharmacistDashboard.HandleAddTreatment` | src/components/PharmacistDashboard.tsx:63-84 | Nothing happens and nothing is alerted with no user selected; otherwise the form is written under the user's id, and on success the form resets to the default and the success alert is raised, on failure the failure alert |
| `PharmacistDashboard.FailedAddKeepsForm` | src/components/PharmacistDashboard.tsx:79-82 | A failed add leaves the page as it was |
| `PharmacistDashboard.AddTwiceWritesDefault` | src/components/PharmacistDashboard.tsx:72-78 | After a successful add, adding again writes the default form |
| `PharmacistDashboard.ScenarioThreeDoses` | src/components/PharmacistDashboard.tsx:86-97 | Two appends and two edits give three times with the first still empty |
| `Treatments.HandleDelete` | src/components/Treatments.tsx:52-62 | After confirm and delete, no entry of that id is left and every entry of another id is kept; declining or a failed delete keeps the list |
| `Treatments.DeleteKeepsOrder` | src/components/Treatments.tsx:56 | The remaining entries keep their order |
| `Treatments.DeleteAbsentOrTwice` | src/components/Treatments.tsx:56 | Deleting an unlisted id changes nothing; deleting twice is deleting once |
| `Treatments.FormatDate` | src/components/Treatments.tsx:74-78 | A missing or empty date reads 'Invalid Date'; any other goes to the locale formatter |
| `AdminDashboard.MakePharmacist` | src/components/AdminDashboard.tsx:48-50 | Role "pharmacist" is set exactly on the matching id; length, order and every other field are kept |
| `AdminDashboard.ShowMakePharmacist` | src/components/AdminDashboard.tsx:76 | The button is hidden for a pharmacist and shown for a plain user or an admin |
| `AdminDashboard.HandleMakePharmacist` | src/components/AdminDashboard.tsx:45-52 | The role is written and the list updated, or neither when the write fails |
| `AdminDashboard.MakePharmacistSettles` | src/components/AdminDashboard.tsx:48-50 | Promoting is idempotent; afterwards that user's button is gone and every other button is as before |
| `AdminDashboard.HandleAddAdmin` | src/components/AdminDashboard.tsx:29-43 | A hit writes role admin, clears the email and drops that user keeping the others; a miss only alerts |
| `AdminDashboard.AddAdminKeepsOrder` | src/components/AdminDashboard.tsx:38-39 | The remaining users keep their order |
| `ProfileSetup.TrimStart` | src/components/ProfileSetup.tsx:64 | Leading white space is removed and nothing else |
| `ProfileSetup.TrimEnd` | src/components/ProfileSetup.tsx:64 | Trailing white space is removed and nothing else |
| `ProfileSetup.Trim` | src/components/ProfileSetup.tsx:64 | `trim()` never lengthens, leaves no white space at either end, and is empty exactly for a string of white space |
| `ProfileSetup.SplitOnSpace` | src/components/ProfileSetup.tsx:64 | `split(' ')` gives at least one piece, and two or more exactly when there is a space |
| `ProfileSetup.ValidateFullName` | src/components/ProfileSetup.tsx:63-65 | A name is valid iff its trimmed form contains `' '` |
| `ProfileSetup.TrimStartPadded` | src/components/ProfileSetup.tsx:64 | Leading white space added to a string does not change its left trim |
| `ProfileSetup.TrimEndPadded` | src/components/ProfileSetup.tsx:64 | Trailing white space added to a string does not change its right trim |
| `ProfileSetup.TrimWithTrailing` | src/components/ProfileSetup.tsx:64 | The trim of a string with trailing white space added is the trim of the string |
| `ProfileSetup.PaddingCannotValidate` | src/components/ProfileSetup.tsx:64 | Leading and trailing white space cannot make a name valid or invalid |
| `ProfileSetup.TwoWordsAccepted` | src/components/ProfileSetup.tsx:64 | "Ana Pop" is accepted |
| `ProfileSetup.NoSpaceRefused` | src/components/ProfileSetup.tsx:64 | A name without a plain space is refused however it is padded |
| `ProfileSetup.TabSeparatedRefused` | src/components/ProfileSetup.tsx:64 | Words separated by a tab are refused |
| `ProfileSetup.HandleSubmit` | src/components/ProfileSetup.tsx:67-94 | Invalid name: the error "Full name must include at least two words." and no write; valid with a user: name, number and profileComplete merged and navigation; loading false on every path |
| `ProfileSetup.StoredNameNotBlank` | src/components/ProfileSetup.tsx:72-85 | A stored full name has a character other than white space |
| `UseAuth.AfterEvent` | src/useAuth.ts:22-50 | Signed out clears everything; signed in keeps the user, the role or "user", and completeness iff name and number are non-empty; a fetch error gives no role; loading false after every event |
| `UseAuth.AuthHook.constructor` | src/useAuth.ts:14-19 | The initial record is no user, no role, loading, not complete |
| `UseAuth.AuthHook.OnAuthStateChanged` | src/useAuth.ts:22-50 | Each event overwrites the whole record |
| `UseAuth.AuthHook.Unmount` | src/useAuth.ts:52 | Teardown unsubscribes the listener |
| `UseAuth.Merge` | src/components/ProfileSetup.tsx:81-85 | A profile write sets the name and number and keeps the role; a role write sets the role; other writes leave the document as it was |
| `UseAuth.RoleOnlyMissingOnError` | src/useAuth.ts:29-39 | A signed-in user has no role exactly when the fetch failed |
| `UseAuth.ProfileSetupCompletes` | src/useAuth.ts:31 | Completing the profile with a number makes the next sign-in complete and keeps the role |
| `UseAuth.ScenarioSignInThenOut` | src/useAuth.ts:42-48 | Signing out after any sign-in gives the signed-out record |
| `FieldNames.FormDocReachesHook` | src/components/AddTreatment.tsx:73-80 | The hook reminds of a form-written treatment exactly at its stored times |
| `FieldNames.FormDocSilencesSystem` | src/components/NotificationSystem.tsx:7-8 | `NotificationSystem` reminds of nothing while a form-written treatment heads its list |
| `FieldNames.PharmacistDocStopsHook` | src/components/PharmacistDashboard.tsx:66-69 | In the hook, a pharmacist-written treatment ends the check: earlier treatments are reminded of, later ones never |
| `FieldNames.PharmacistDocReachesSystem` | src/components/NotificationSystem.tsx:40 | `NotificationSystem` reminds of a pharmacist-written treatment exactly at its times |
| `FieldNames.EditedPharmacistDocReachesBoth` | src/components/EditTreatmentDialog.tsx:83-93 | A pharmacist-written treatment saved from the edit dialog is reminded of by the hook at the edited times and by `NotificationSystem` at the pharmacist's times |

## Left out

- Firebase (`getDoc`, `setDoc`, `updateDoc`, `addDoc`, `deleteDoc`, queries,
  `onSnapshot`, auth listeners): foreign services. Their results are
  parameters and their writes are records.
- Timers and the React lifecycle: intervals are explicit calls. Asynchronous
  interleavings, such as a preference read answering after a snapshot or a
  request resolving later, are taken in the order of the calls.
- `toLocaleTimeString` and `toLocaleDateString`: locale-dependent. The time is
  rendered by `Clock.FormatHHMM`. The date formatter is a parameter of
  `Treatments.FormatDate`.
- `UseNotifications.SendNotification`: assumes the Notification API exists.
  The hook reads `Notification.permission` with no guard, so without the API
  a matching treatment throws and ends the check; the model has no such
  browser for the hook, unlike `NotificationSystem.Platform`.
- `UseNotifications.ReminderHook`: a crash of the reminder effect also
  unmounts every other component of the tree; only this hook's state is
  modelled. All live intervals are taken to fire in the same `Tick`.
- `window.atob`: a parameter. The model does not decode RFC 4648 section 4 base64
  itself. `PushNotifications.WellPadded` states the shape `atob` accepts.
- `Notification.requestPermission`: its result is an input. In
  `NotificationSystem` each request in one tick is given the same result.
- The `NotificationSystem` interval is re-armed on every snapshot with no
  immediate check. Clearing and setting it again has no visible effect in the
  model, so it is one armed flag.
- `NotificationPermission.PermissionPrompt.HandleEnable`: the subscription's
  JSON serialisation is an opaque string parameter.
- `PushNotifications.SubscribeUserToPush`: does not model the JSON of the
  subscription or `navigator.serviceWorker`. The push service's answer is a
  parameter.
- `PushNotifications.SendPushNotification`: does not model
  `JSON.parse(pushSubscription)`, which throws on a truthy value that is not
  JSON before any request goes out. The app only stores `JSON.stringify`
  output there, so the stored value is taken to parse.
- `AddTreatment.HandleSubmit`: the slider's `newValue as number` and the time
  input's value are taken as given. No `parseInt` or format check happens in
  the source either.
- `TreatmentForm.HandleTimeChange`: requires an index of a rendered input.
  JavaScript would extend the array for a larger index, but the handler only
  ever receives rendered indices.
- `ProfileSetup.HandleSubmit`: the browser's `required` check on
  empty inputs happens before the handler runs and is not modelled.
  `UseAuth.ProfileSetupCompletes` therefore takes a non-empty number as a
  premise.
- The `medicineName`/`times` against `medicationName`/`administrationTimes`
  mismatch is kept and stated in `FieldNames`, not repaired.
- UI, routing, Settings, Login, Register, VerifyEmail, the service workers,
  `sendVerificationCode`, `notificationUtils`, `NotificationComponent`: outside
  the modelled logic. The last two repeat the permission gate of
  `UseNotifications.SendNotification`.
