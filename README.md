# SafeSearch emergency alerts — a verified model

SafeSearch is a React Native app that sends emergency SMS alerts to a user's chosen contacts. An alert carries either the phone's location or a link to a recorded audio message. This project models the app's decision-making core in Dafny and proves properties of it:

- **SMS service** (`sms.dfy`, module `Sms`):
  - phone-number validation and formatting;
  - the order of checks in a single send;
  - the sequential bulk send, with its progress reports;
  - the audio and emergency message builders.
- **Location service** (`location.dfy`, module `Location`):
  - the retry loop of `getCurrentLocation`;
  - turning a position into a fix, and the error-code mapping;
  - the reverse-geocoded address string;
  - the location alert text;
  - the watch-id and last-location state of continuous tracking.
- **Contact store** (`storage.dfy`, module `Storage`). Every operation reads the whole persisted contact array, changes it in memory and writes it back. The operations are add, update, delete, the three history saves and lookup. The store is a class whose `persisted` field is the device's key-value entry.
- **Home screen logic** (`home.dfy`, module `Home`):
  - the selection toggles;
  - choosing dispatch targets in list order;
  - the guard in front of a send;
  - the history loop that swallows failures;
  - counting results and picking the result dialog;
  - the progress line.
- **Add-contact form** (`add_contact.dfy`, module `AddContact`): the three guards of `handleSave`, then the single add.
- **Recording state** (`audio.dfy`, module `Audio`): `isRecording`, `currentRecording` and `recordingError`, and how start, stop and clear-error change them.

Shared text helpers live in `common.dfy` (module `Common`): digit filtering, ECMAScript whitespace and `trim`, `filter`/`map`/`join`, substring search, and integer rendering. The record types live in `contacts.dfy` (module `Contacts`).

Some collaborators are not modelled. They become inputs to the model instead:

- **The device:**
  - the SMS module's answer per contact;
  - the positioning module's answer per attempt;
  - the geocoding reply;
  - whether a storage read or write succeeds;
  - the recorder's reply.
- **The clock:** `Date.now()` and the ISO and locale date strings are passed in as values.
- **Floating-point rendering:** `String(x)`, `toFixed(6)` and `toFixed(1)` come from a `Render` value.

A delay is recorded as a step carrying its duration. Nothing models the time it takes.

## Model

| member | source | states |
|---|---|---|
| Sms.ValidatePhoneNumber | src/services/SMSService.js:73-79 | A phone is valid iff it holds 10 to 15 digit characters, whatever else it contains. |
| Sms.FormatPhoneNumberDigits | src/services/SMSService.js:82-85 | The formatted number holds only digits, as many as the input has, and every digit the input contains. |
| Sms.FormatPhoneNumberStable | src/services/SMSService.js:73-85 | Formatting is idempotent and does not change whether a number is valid. |
| Sms.DeliverOutcome | src/services/SMSService.js:88-154 | The device accepts iff permission is held or granted and the native send reports no failure (Android), or the `sms:` URL opens (elsewhere). An accepted send is addressed to the formatted number. A refused permission gives "SMS permission denied by user". Every refusal is a device error. |
| Sms.SendSMSOutcome | src/services/SMSService.js:53-70 | Fewer than 10 or more than 15 digits fails with the invalid-phone error, whatever the message. A valid phone with a blank message fails with the empty-message error. Only otherwise is the device asked, and its answer is the result. |
| Sms.DispatchRecords | src/services/SMSService.js:246-264 | Each result carries the contact's id, name and phone. It is a success iff validation passed and the device accepted. A failure keeps the exact error the send raised. |
| Sms.RequestIffValidated | src/services/SMSService.js:246-264 | The device is asked for a contact iff that contact's result is not a validation error. |
| Sms.SendBulkSMS | src/services/SMSService.js:229-281 | One result and one iteration per contact, in input order; a failure never stops later contacts. Result i is the dispatch of contact i with the i-th device answer. When a callback is given, iteration i reports `sending` and then `sent`, both with current i+1 and total n, around a 500 ms pause. The device request is made iff validation passes, and it goes to the formatted number. |
| Sms.AudioMessageNotBlank | src/services/SMSService.js:179-185 | The audio message opens with the siren emoji, so it is never blank. |
| Sms.AudioSmsReachesDevice | src/services/SMSService.js:179-188 | With a valid phone, sending the audio message is exactly the device's answer. |
| Sms.AudioMessageCarries | src/services/SMSService.js:180-185 | The audio message contains the audio URL line. When a non-zero duration is given, it also contains the rounded duration. |
| Sms.EmergencyAlertPlanCases | src/services/SMSService.js:191-226 | Only type `audio` is refused, and only `location` is delegated. `medical`, `police` and `fire` compose a siren-headed text. Any other type sends a non-empty custom message as given, and the general alert otherwise. |
| Sms.EmergencyAlertSend | src/services/SMSService.js:191-226 | With a valid phone, the three typed alerts and the general alert always reach the device. A custom message for any other type is refused as empty exactly when it is only whitespace. |
| Location.FormatLocationKeepsReadings | src/services/EnhanceLocationService.js:91-106 | A fix keeps every reading and the timestamp. Its provider is the device's when that is non-empty, and "gps" otherwise. Its time is the rendered timestamp. |
| Location.FormatErrorCases | src/services/EnhanceLocationService.js:109-134 | The code and the details pass through. Codes 1, 2 and 3 get their fixed message pairs; any other code gets "Unable to get location" / "Location service unavailable". |
| Location.ScheduleShape | src/services/EnhanceLocationService.js:52-86 | A run of n attempts from k is 2(n-k)+1 steps: requests numbered in order, with one pause of the retry delay between each two. |
| Location.AcquireSucceeds | src/services/EnhanceLocationService.js:52-75 | When attempt n is the first that locates, the result is that fix, after requests 1..n with a pause between each two. |
| Location.AcquireExhausts | src/services/EnhanceLocationService.js:77-86 | When every attempt fails, the formatted error of the last attempt is raised, after `retries` requests and `retries - 1` pauses. |
| Location.DefaultAcquireExhausts | src/services/EnhanceLocationService.js:43-88 | With the default options, three failed attempts give three requests two seconds apart. The third refusal is reported. |
| Location.AcquireNoAttempt | src/services/EnhanceLocationService.js:52 | With `retries <= 0`, nothing is requested and the call settles to undefined. |
| Location.LocationService.GetCurrentLocation | src/services/EnhanceLocationService.js:43-88 | The loop's outcome and its requests and pauses are exactly those of the attempt function. A successful fix is also stored as the last location; otherwise the last location is unchanged. |
| Location.ShortAddressPicksFirst | src/services/EnhanceLocationService.js:187 | The short address is never empty. It is the road, else the suburb, else the city, else "Unknown location"; town and village are never used. |
| Location.AppendPartsSeparates | src/services/EnhanceLocationService.js:177-182 | Appending the later parts adds ", " before each present one, in order. |
| Location.FormattedAddressWithRoad | src/services/EnhanceLocationService.js:173-186 | With a road that does not start with a comma, the formatted address is the present parts joined by ", ". |
| Location.FormattedAddressWithoutRoad | src/services/EnhanceLocationService.js:173-186 | Without a road, and when the first present part does not start with whitespace, stripping the leading ", " leaves the present parts joined by ", ". |
| Location.FormattedAddressJoinsParts | src/services/EnhanceLocationService.js:173-186 | The formatted address is the present parts among road, suburb, city/town/village, state and country, in that order, joined by ", ". |
| Location.GeocodeNeverThrows | src/services/EnhanceLocationService.js:156-193 | The lookup yields an address iff the reply is a body with no error text and an `address`. Every other reply gives null. The address carries the formatted and short forms of that `address`. |
| Location.LocationMessageAddress | src/services/EnhanceLocationService.js:203-205 | With non-empty address text, the message contains the ADDRESS heading followed by the text. Without it, the message is the one built with no address. |
| Location.LocationMessageCoordinates | src/services/EnhanceLocationService.js:207-209 | The message always contains both coordinates rendered to six places. |
| Location.LocationMessageLinks | src/services/EnhanceLocationService.js:197-213 | The message always contains the Google and Apple map links built from the coordinates. |
| Location.LocationMessageAccuracy | src/services/EnhanceLocationService.js:215-216 | A missing or zero accuracy prints "High precision"; any other accuracy prints as meters to one place. |
| Location.LocationService.constructor | src/services/EnhanceLocationService.js:5-8 | A new service has no watch and no last location. |
| Location.LocationService.StopLocationTracking | src/services/EnhanceLocationService.js:253-258 | Afterwards there is no watch. The registration cleared is the one there was, so a second stop clears nothing. |
| Location.LocationService.StartLocationTracking | src/services/EnhanceLocationService.js:225-250 | A watch already in place is cleared first. The new id is stored and returned. |
| Location.LocationService.OnWatchPosition | src/services/EnhanceLocationService.js:231-235 | Each watched position becomes the last location, formatted. |
| Location.LocationService.GetLastKnownLocation | src/services/EnhanceLocationService.js:261-263 | Returns the last location stored. |
| Location.LocationService.OnWatchError | src/services/EnhanceLocationService.js:236-240 | A watch error reaches the error callback iff one was given. The report is exactly the formatted error that a failed single request throws: same code, same details, and the message pair `FormatErrorCases` gives for each code. The last location and the watch id are untouched. |
| Storage.FindIndex | src/services/StorageService.js:54 | Gives the index of the first contact with the id, or none when no contact has it. |
| Storage.AddThenFind | src/services/StorageService.js:31-48 | Appending a contact with a new id makes it found at the end. Ids already present are still found where they were. |
| Storage.AddedContactReadsBack | src/services/StorageService.js:31-48 | After a contact with a new id is added, a lookup by that id finds it at the end of the list. It has the form's five fields, that id and creation time, no update time and an empty history. |
| Storage.MergeFields | src/services/StorageService.js:60-64 | A merge overrides exactly the fields the patch carries (id, name, phone, email, relationship, notes, createdAt, history), keeps the others, and always stamps the update time. |
| Storage.MergeIdempotent | src/services/StorageService.js:60-64 | An empty patch changes only the update time; merging the same patch twice equals merging it once. |
| Storage.HistoryItemFields | src/services/StorageService.js:97-101 | An entry holds the caller's keys plus `type` and `timestamp`. The timestamp is always the fresh one. The tag survives only when the caller's data has no `type`. Every other key keeps the caller's value. |
| Storage.Record | src/services/StorageService.js:103-107 | The entry is put in front of the history, a missing history counting as empty. No other field changes. |
| Storage.DeleteRemovesOnly | src/services/StorageService.js:75-85 | Deleting removes exactly the contacts with the id. The id is no longer found. An absent id leaves the collection as it was, and deleting twice equals deleting once. |
| Storage.SavedKeepsIds | src/services/StorageService.js:88-114 | A history save never adds, removes or reorders contacts. |
| Storage.ContactStore.GetContactsFromJSON | src/services/StorageService.js:9-17 | Returns the stored array, or the empty list when the key is missing or the read fails. |
| Storage.ContactStore.SaveContacts | src/services/StorageService.js:20-28 | A successful write stores the array and returns true. A refused write raises the storage error and stores nothing. |
| Storage.ContactStore.AddContact | src/services/StorageService.js:31-48 | On success, the stored collection is the loaded one with exactly one new contact appended, and that contact is returned. On failure, nothing is stored. |
| Storage.ContactStore.UpdateContact | src/services/StorageService.js:51-72 | An unknown id fails with "Contact not found" and stores nothing. Otherwise the first match is replaced in place by the merge and returned, and every other contact is kept. |
| Storage.ContactStore.DeleteContact | src/services/StorageService.js:75-85 | Stores the collection without the id, in order, and returns true even when the id was absent. |
| Storage.ContactStore.SaveActivity | src/services/StorageService.js:88-172 | An unknown id fails with "Contact not found" and stores nothing. Otherwise the first match gets the tagged entry in front of its history, and no other contact changes. The location, SMS and recording saves differ only in the tag. |
| Storage.ContactStore.GetContactById | src/services/StorageService.js:175-183 | Returns the first contact with the id, or null iff there is none. |
| Home.ToggleFlips | src/screens/HomeScreen.js:371-379 | Toggling flips whether that id is selected, and no other id's. |
| Home.ToggleTwice | src/screens/HomeScreen.js:371-379 | Toggling an unselected id twice restores the selection exactly. |
| Home.SelectAllCases | src/screens/HomeScreen.js:381-387 | A selection as long as the contact list is cleared. Any other selection becomes every contact, in list order. |
| Home.TargetsAreSelected | src/screens/HomeScreen.js:175-177 | The targets are exactly the listed contacts whose id is selected. |
| Home.TargetsIgnoreSelectionOrder | src/screens/HomeScreen.js:175-177 | Targets depend only on which ids are selected. They follow contact-list order, not selection order. |
| Home.SendGateCases | src/screens/HomeScreen.js:84-107 | An empty selection stops before any permission request. A send proceeds iff something is selected and every permission asked for is granted. Only permissions not already held are requested. |
| Home.CountsAddUp | src/screens/HomeScreen.js:204-205 | Successes plus failures equal the number of results. There are no failures iff every send was delivered. |
| Home.ResultAlertTitles | src/screens/HomeScreen.js:204-228 | The success dialog is shown, for location and for audio, iff every send was delivered. |
| Home.FailureDetailsCases | src/screens/HomeScreen.js:217-223 | The details fall back to "All messages sent successfully" iff nothing failed. Otherwise they open with a failed contact's line. |
| Home.ProgressTextCases | src/screens/HomeScreen.js:400-419 | There is a text iff there is progress. An unknown status shows "Processing... (current/total)". |
| Home.BulkProgressTexts | src/screens/HomeScreen.js:309-315 | During a location send, the progress line counts up on `sending` and names the contact on `sent`. During an audio send it shows the counter for both, so it never names a contact. |
| Home.MessageSummaryShape | src/screens/HomeScreen.js:196 | The stored summary is the first 100 characters plus "...". A message of at most 100 characters is kept whole and still gets the ellipsis. |
| Home.LocationEntryFields | src/screens/HomeScreen.js:190-197 | A stored location entry keeps the `location` tag, carries the message summary, and has the store's timestamp. |
| Home.SavedAllKeepsIds | src/screens/HomeScreen.js:188-201 | The history loop never adds, removes or reorders contacts, whichever saves fail. |
| Home.SaveHistories | src/screens/HomeScreen.js:188-201 | A save is attempted and logged for every target, in order, whatever its send did. Failures do not stop the loop. The final store is the saves applied in turn. |
| Home.SendLocationToContacts | src/screens/HomeScreen.js:174-232 | The selected contacts, in list order, get the bulk send and then a location history save each. The dialog is the location result dialog for those results. |
| Home.HomeAudioMessageSendable | src/screens/HomeScreen.js:303-307 | The audio text contains the download link and is never blank. So with a valid phone the send is exactly the device's answer. |
| Home.SendAudioToContacts | src/screens/HomeScreen.js:299-342 | The selected contacts, in list order, get the bulk send of the audio text and then a recording history save each. The dialog is the audio result dialog. |
| AddContact.PatternOnDigits | src/screens/AddContactScreen.js:40-44 | On the digit-only phone the optional plus never matches. The phone passes iff it has 2 to 15 digits and does not start with 0. |
| AddContact.ValidateCases | src/screens/AddContactScreen.js:29-44 | A blank name fails first and a blank phone fails next. The pattern fails only after both pass. Each failure is the only one reported. An accepted form has 2 to 15 digits. |
| AddContact.AcceptedButUnsendable | src/screens/AddContactScreen.js:40-44 | An accepted phone with fewer than 10 digits is refused by every later SMS send, before reaching the device. |
| AddContact.HandleSave | src/screens/AddContactScreen.js:27-63 | A failing guard shows its message and stores nothing. Otherwise the store's add is called exactly once. The dialog reports success or "Failed to add contact: " plus the error. |
| Audio.RecordingSession.constructor | src/context/AudioContext.js:8-10 | A new session is not recording and has no recording and no error. |
| Audio.RecordingSession.StartRecording | src/context/AudioContext.js:12-24 | There is no guard. A success clears the error, sets recording and shows the started recording. A failure sets the error to its message, leaves the rest unchanged and is rethrown. While recording, the recording on show is always a started one. |
| Audio.RecordingSession.StopRecording | src/context/AudioContext.js:26-41 | When not recording, it fails with "No active recording to stop", sets that error and never calls the recorder. A success ends a started recording and shows the finished one. Any failure records its message. A failed stop leaves the started recording running and on show. |
| Audio.RecordingSession.ClearError | src/context/AudioContext.js:43-45 | Clears the error and changes nothing else. |

## Left out

- SMS permission requests and checks (`requestSMSPermission`, `checkSMSPermission`, src/services/SMSService.js:11-50): their combined answer is part of the device reply of a send.
- The `isPermissionGranted` field: it is written but no decision reads it.
- `sendLocationSMS` (src/services/SMSService.js:157-176): it calls `getLocationWithRetry`, which the location service does not define, so it always fails.
- `getSMSDeliveryStatus` and `getSMSHistory`: these are queries to the device's SMS store.
- `requestLocationPermission`: a permission dialog.
- `getLocationWithAddress` (src/services/EnhanceLocationService.js:137-153): a composition of the modelled acquisition, lookup and message.
- `calculateDistance`: trigonometry on floats.
- Floating-point rendering: `String(x)`, `toFixed` and `toLocaleString` are opaque functions. `Math.round` is modelled on mathematical reals.
- Clocks: `Date.now()`, `toISOString()` and `toLocaleString()` of the current time are inputs. The message id and timestamp of a send receipt are not kept.
- Delays: the 500 ms pause and the retry delay are recorded as steps, not as elapsed time. The positioning options (accuracy, timeout, maximum age) are passed only to the positioning module.
- Sms.SendBulkSMS: the progress reports, the device request and the pause of one contact form one `Iteration` record. The record's field order is their order in time; there is no flat event log.
- Asynchronous interleaving: callers are strictly sequential. Overlapping read-modify-write cycles of the store are not modelled.
- JSON: the store holds typed records. `null` and an absent key are not told apart. Extra keys the caller puts in `addContact`'s or `updateContact`'s data are not modelled; only the form's fields and the contact's own fields are.
- Location.GetAddressFromCoordinates: the other fields of the geocoding reply are not carried, only its `address`. The check that `data.address` exists stands for the exception its absence raises.
- Location.FormattedAddressWithRoad: proved only when the road does not start with a comma. The leading-comma strip would also remove that comma and any whitespace after it.
- Location.FormattedAddressWithoutRoad: proved only when the first present part does not start with whitespace. The strip removes that whitespace together with the ", ".
- Location.FormattedAddressJoinsParts: proved only when the first present part does not itself start with a comma or whitespace, which the leading-comma strip would also remove.
- Home.MessageSummary: strings are sequences of Unicode code points, whereas `substring(0, 100)` counts UTF-16 code units. Every location message opens with "🚨" and contains "📍". Both lie outside the Basic Multilingual Plane and take two UTF-16 units each, and every location message is longer than 100 units. So every stored location summary is cut later in the model than in the app, or not at all.
- The screens' React state (`progress`, `sendingLocation`, `sendingAudio`, `permissionStatus` updates) and all dialogs and their buttons are not modelled, apart from the result dialogs and the progress text.
- `handleSendLocation` after the guard (location acquisition dialogs, the "Location Error" text, the confirmation step): these are UI around modelled calls.
- `handleStopAndSendAudio`'s stop-and-upload step: the upload function is not provided by the recording context. The model starts from the uploaded link.
- `handleStartRecording`, `handleCall`, `handleEmail` and `checkPermissions`: UI wrappers.
- The contact context that mirrors the store into screen state is not part of this model. `HandleSave` calls the store directly, as the context's `addContact` forwards to it.
- The recorder itself (file paths, durations, the audio library) is not modelled; its replies are inputs.
