# Renewly subscription tracker: a Dafny model of its core logic

Renewly is an Android app for tracking recurring subscriptions. A user keeps a
list of subscriptions, each with a name, a price, a monthly or yearly cycle,
a start date, an icon (an emoji key or an image) and a colour gradient. The
list screen shows a live countdown to each renewal. This project models the
logic behind those screens and proves properties of it:

- the `Subscription` record and its defaults (module `SubscriptionData`);
- the renewal loops. The list card steps the stored date forward by whole
  cycles until it is strictly after now, then splits the remaining time into
  days and hours (`SubscriptionListScreen`). The save button steps the start
  date until it is no longer before now (`AddEditSubscriptionScreen`);
- the add/edit screen's input filters, the record it assembles in its upload
  and direct save branches, the colour picker's selection test, and its
  remembered form state with the `uploading` flag (class
  `AddEditSubscriptionScreen.Editor`);
- the predefined gradient table and the lookup by hex key (`ColorGradients`);
- the snapshot listener that turns Firestore documents into the published
  list, sorted stably by next-due date (`SubscriptionsViewModel`);
- the profile state machine and the guards on renaming and on uploading a
  profile picture (`ProfileViewModel`), plus the rename dialog's initial text.

Helper modules:

- `Wrappers` holds `Option`.
- `Text` holds Kotlin's `startsWith`, `take`, `isBlank`, `ifBlank` and
  `trim`. Whitespace follows the JVM's `Char.isWhitespace` code points.
- `CalendarStep` stands for `Calendar.add(MONTH | YEAR, 1)`. It is an
  abstract pair of functions on epoch milliseconds. The only fact assumed
  about them (predicate `Advances`) is that each one moves time strictly
  forward.

Each Kotlin `while` loop is a Dafny method whose loop invariant ties it to a
recursive specification function. Lemmas prove that each loop stops after
the least number of cycles that passes now.

Where the declared record and the code disagree, the model follows the code.
`Subscription.kt` declares seven fields. The screens also read and write
`startDate`, `iconUri` and `colorHex`, so the model's record has all ten.
The undeclared fields get these defaults: `startDate` is the construction
clock, and `iconUri` and `colorHex` are null.

## Model

| member | source | states |
|---|---|---|
| SubscriptionData.NewSubscription | app/src/main/java/com/example/renewly/data/Subscription.kt:3-11 | the defaults: empty id and name, price 0, icon key 🧩, no notes, next-due date the clock, 30 days (a monthly cycle) |
| SubscriptionData.WithId | app/src/main/java/com/example/renewly/ui/subs/SubscriptionsViewModel.kt:30 | `copy(id = ...)` sets the id and leaves every other field as it was |
| SubscriptionData.WithIdLaws | app/src/main/java/com/example/renewly/ui/subs/SubscriptionsViewModel.kt:30 | setting the id twice keeps the second; setting it to itself changes nothing; a copy equals the record exactly when the id was already that value |
| SubscriptionData.CycleOf | app/src/main/java/com/example/renewly/ui/subs/SubscriptionListScreen.kt:291 | the cycle is yearly exactly when the day count is at least 365 |
| SubscriptionData.CycleDays | app/src/main/java/com/example/renewly/ui/subs/AddEditSubscriptionScreen.kt:221 | a saved cycle stores 30 or 365 days, and reading that count back gives the same cycle |
| SubscriptionData.CycleRoundTrip | app/src/main/java/com/example/renewly/ui/subs/AddEditSubscriptionScreen.kt:93 | storing then reading a cycle gives it back; reading then storing a day count gives it back exactly for 30 and 365 |
| CalendarStep.Add | app/src/main/java/com/example/renewly/ui/subs/SubscriptionListScreen.kt:311-314 | one calendar step of the chosen cycle lands strictly later |
| CalendarStep.IterateShift | app/src/main/java/com/example/renewly/ui/subs/SubscriptionListScreen.kt:310-315 | taking one step and then k more is the same as taking k+1 steps |
| CalendarStep.IterateIncreasing | app/src/main/java/com/example/renewly/ui/subs/SubscriptionListScreen.kt:310-315 | successive steps are strictly increasing, and k steps advance at least k ms |
| SubscriptionListScreen.NextStrictlyAfter | app/src/main/java/com/example/renewly/ui/subs/SubscriptionListScreen.kt:306-317 | the countdown target is strictly after now, at least the start, and the start itself when that is already in the future |
| SubscriptionListScreen.NextStrictlyAfterIsLeastStep | app/src/main/java/com/example/renewly/ui/subs/SubscriptionListScreen.kt:310-315 | the target is start + k cycles, where every earlier step is at or before now (the least such k) |
| SubscriptionListScreen.NextDue | app/src/main/java/com/example/renewly/ui/subs/SubscriptionListScreen.kt:306-317 | the `while (!cal.after(current))` loop returns that target |
| SubscriptionListScreen.Split | app/src/main/java/com/example/renewly/ui/subs/SubscriptionListScreen.kt:319-325 | "Due!" shows exactly when the target is not after now; otherwise whole days and hours (hours < 24) bound the remaining milliseconds from below, within one hour |
| SubscriptionListScreen.CountdownText | app/src/main/java/com/example/renewly/ui/subs/SubscriptionListScreen.kt:306-325 | the card shows the split of the loop's target, and that split is never "Due!" |
| SubscriptionListScreen.CardIcon | app/src/main/java/com/example/renewly/ui/subs/SubscriptionListScreen.kt:255-279 | an image appears exactly when iconUri is present and starts with "http"; otherwise the text is the first min(2, length) characters of the icon key |
| Text.Take | app/src/main/java/com/example/renewly/ui/subs/AddEditSubscriptionScreen.kt:177 | `take(n)` is a prefix of length min(n, length) |
| Text.StartsWith | app/src/main/java/com/example/renewly/ui/subs/SubscriptionListScreen.kt:255 | `startsWith(p)` holds exactly when the first len(p) characters are p |
| Text.IsBlank | app/src/main/java/com/example/renewly/ui/subs/AddEditSubscriptionScreen.kt:239 | `isBlank()` holds for the empty string, and exactly when every character is whitespace |
| Text.IfBlank | app/src/main/java/com/example/renewly/ui/subs/AddEditSubscriptionScreen.kt:239 | `ifBlank` gives the fallback exactly when the text is blank, and the text otherwise |
| Text.Trim | app/src/main/java/com/example/renewly/ui/subs/AddEditSubscriptionScreen.kt:219 | `trim()` gives a contiguous slice with blank text on both sides and no whitespace at either end; it is empty exactly when the input is blank |
| Text.TrimIdempotent | app/src/main/java/com/example/renewly/ui/subs/AddEditSubscriptionScreen.kt:219 | trimming twice is trimming once |
| AddEditSubscriptionScreen.FilterPrice | app/src/main/java/com/example/renewly/ui/subs/AddEditSubscriptionScreen.kt:148 | the price field keeps only digits and dots, and never grows |
| AddEditSubscriptionScreen.FilterPriceIsSubsequence | app/src/main/java/com/example/renewly/ui/subs/AddEditSubscriptionScreen.kt:148 | the filtered text keeps the input's order |
| AddEditSubscriptionScreen.FilterPriceCounts | app/src/main/java/com/example/renewly/ui/subs/AddEditSubscriptionScreen.kt:148 | every digit and dot keeps its count; every other character drops to zero |
| AddEditSubscriptionScreen.FilterPriceKeepsPriceText | app/src/main/java/com/example/renewly/ui/subs/AddEditSubscriptionScreen.kt:148 | text made only of digits and dots passes unchanged |
| AddEditSubscriptionScreen.FilterPriceIdempotent | app/src/main/java/com/example/renewly/ui/subs/AddEditSubscriptionScreen.kt:148 | filtering twice is filtering once |
| AddEditSubscriptionScreen.IsPriceChar | app/src/main/java/com/example/renewly/ui/subs/AddEditSubscriptionScreen.kt:148 | the price filter keeps exactly the characters of "0123456789." |
| AddEditSubscriptionScreen.FilterIconKey | app/src/main/java/com/example/renewly/ui/subs/AddEditSubscriptionScreen.kt:177 | the icon field keeps a prefix of at most two characters |
| AddEditSubscriptionScreen.FilterIconKeyIdempotent | app/src/main/java/com/example/renewly/ui/subs/AddEditSubscriptionScreen.kt:177 | a key of at most two characters passes unchanged, and filtering twice is filtering once |
| AddEditSubscriptionScreen.NextAtOrAfter | app/src/main/java/com/example/renewly/ui/subs/AddEditSubscriptionScreen.kt:205-213 | the saved next-due date is at or after now, at least the start date, and the start date itself when that is not in the past |
| AddEditSubscriptionScreen.NextAtOrAfterIsLeastStep | app/src/main/java/com/example/renewly/ui/subs/AddEditSubscriptionScreen.kt:206-212 | the saved date is start + k cycles, where every earlier step is before now |
| AddEditSubscriptionScreen.SaveNextDue | app/src/main/java/com/example/renewly/ui/subs/AddEditSubscriptionScreen.kt:205-213 | the `while (calcCalendar.timeInMillis < now)` loop returns that date |
| AddEditSubscriptionScreen.ShownVersusSaved | app/src/main/java/com/example/renewly/ui/subs/AddEditSubscriptionScreen.kt:206 | the list's countdown target is the saved date, stepped once more exactly when the saved date equals now |
| AddEditSubscriptionScreen.CountdownFromSavedAgrees | app/src/main/java/com/example/renewly/ui/subs/AddEditSubscriptionScreen.kt:213 | counting down from the saved date gives the same target as counting down from the start date |
| AddEditSubscriptionScreen.SavedAndShownDifferOnStartDate | app/src/main/java/com/example/renewly/ui/subs/AddEditSubscriptionScreen.kt:206 | when the start date is now, the save stores now but the list counts to one cycle later |
| AddEditSubscriptionScreen.InitialForm | app/src/main/java/com/example/renewly/ui/subs/AddEditSubscriptionScreen.kt:79-85 | a new form is empty, monthly, starts at the clock, has icon 🎯 and no image or colour |
| AddEditSubscriptionScreen.LoadedForm | app/src/main/java/com/example/renewly/ui/subs/AddEditSubscriptionScreen.kt:88-98 | editing loads name, the given price text, start date, icon key, icon URI and colour from the record, and its stored cycle as monthly or yearly |
| AddEditSubscriptionScreen.OriginalId | app/src/main/java/com/example/renewly/ui/subs/AddEditSubscriptionScreen.kt:218 | the original record's id when editing, "" when adding |
| AddEditSubscriptionScreen.SavedIconKey | app/src/main/java/com/example/renewly/ui/subs/AddEditSubscriptionScreen.kt:239 | the saved icon key is never blank: the typed key, or 📦 when that is blank |
| AddEditSubscriptionScreen.NeedsUpload | app/src/main/java/com/example/renewly/ui/subs/AddEditSubscriptionScreen.kt:215 | no picked URI never uploads, and an uploading URI never starts with "http", so the upload and web-address cases are disjoint |
| AddEditSubscriptionScreen.KeptIconUri | app/src/main/java/com/example/renewly/ui/subs/AddEditSubscriptionScreen.kt:240 | without an upload, an "http" URI is kept; anything else falls back to the original record's URI, or null when adding |
| AddEditSubscriptionScreen.UploadedRecord | app/src/main/java/com/example/renewly/ui/subs/AddEditSubscriptionScreen.kt:217-227 | the upload branch's record: id, trimmed name, price, 30/365 days, start and next-due dates, colour and no notes; iconUri is the upload result; the icon key is "" after a successful upload and a non-blank key after a failed one |
| AddEditSubscriptionScreen.DirectRecord | app/src/main/java/com/example/renewly/ui/subs/AddEditSubscriptionScreen.kt:232-242 | the direct branch's record: the same common fields, a non-blank icon key and the kept icon URI |
| AddEditSubscriptionScreen.ResaveUnchanged | app/src/main/java/com/example/renewly/ui/subs/AddEditSubscriptionScreen.kt:232-242 | opening a record saved by the direct branch or after a failed upload, and saving it untouched, changes only its next-due date |
| AddEditSubscriptionScreen.ResaveNormalises | app/src/main/java/com/example/renewly/ui/subs/AddEditSubscriptionScreen.kt:232-242 | resaving keeps the id, rounds the day count to 30 or 365, and drops the notes |
| AddEditSubscriptionScreen.ResaveAfterUpload | app/src/main/java/com/example/renewly/ui/subs/AddEditSubscriptionScreen.kt:224 | a record saved after a successful upload to a web address has icon key ""; resaving it untouched goes through the direct branch and stores 📦, keeping the URI and the card's image, so that record is not given back unchanged |
| AddEditSubscriptionScreen.UploadedCardIcon | app/src/main/java/com/example/renewly/ui/subs/AddEditSubscriptionScreen.kt:224-225 | after an upload the card shows the uploaded image when it has an "http" URL, a blank glyph when the URL is not web, and the placeholder key when the upload failed |
| AddEditSubscriptionScreen.IsSelected | app/src/main/java/com/example/renewly/ui/subs/AddEditSubscriptionScreen.kt:268 | a swatch is selected exactly when its hex matches the chosen key, by the same test the brush lookup uses; nothing is selected when no colour is chosen |
| AddEditSubscriptionScreen.SelectedSwatch | app/src/main/java/com/example/renewly/ui/subs/AddEditSubscriptionScreen.kt:268 | at most one swatch is marked selected, and its brush is the one the list card draws for that key |
| AddEditSubscriptionScreen.Editor.constructor | app/src/main/java/com/example/renewly/ui/subs/AddEditSubscriptionScreen.kt:79-86 | the screen opens with the initial form and is not uploading |
| AddEditSubscriptionScreen.Editor.Load | app/src/main/java/com/example/renewly/ui/subs/AddEditSubscriptionScreen.kt:88-98 | editing an existing record replaces the form with the loaded one; adding leaves the form alone |
| AddEditSubscriptionScreen.Editor.EditPrice | app/src/main/java/com/example/renewly/ui/subs/AddEditSubscriptionScreen.kt:148 | the price field becomes the filtered input |
| AddEditSubscriptionScreen.Editor.EditIconKey | app/src/main/java/com/example/renewly/ui/subs/AddEditSubscriptionScreen.kt:177 | the icon field becomes the first two characters of the input |
| AddEditSubscriptionScreen.Editor.Save | app/src/main/java/com/example/renewly/ui/subs/AddEditSubscriptionScreen.kt:201-245 | a click is ignored while uploading. A content:// image starts an upload, remembers the next-due date and stays uploading. Otherwise the click saves the direct record with the computed next-due date and clears the flag |
| AddEditSubscriptionScreen.Editor.UploadFinished | app/src/main/java/com/example/renewly/ui/subs/AddEditSubscriptionScreen.kt:216-229 | the upload callback saves the upload-branch record with the remembered next-due date and clears the flag |
| ColorGradients.PredefinedShape | app/src/main/java/com/example/renewly/ui/theme/ColorGradients.kt:59-71 | the picker offers 11 gradients, Default first |
| ColorGradients.FirstMatch | app/src/main/java/com/example/renewly/ui/theme/ColorGradients.kt:74 | `find` returns the first index whose hex equals the key, or none when no entry matches |
| ColorGradients.GetBrushByHex | app/src/main/java/com/example/renewly/ui/theme/ColorGradients.kt:73-75 | a missing or unknown key gives Default's brush; otherwise the brush of the first entry whose hex matches |
| ColorGradients.HexKeysDistinct | app/src/main/java/com/example/renewly/ui/theme/ColorGradients.kt:10-55 | the 11 hex keys are pairwise distinct |
| ColorGradients.LookupListed | app/src/main/java/com/example/renewly/ui/theme/ColorGradients.kt:73-75 | looking up any listed entry's hex gives that entry's brush |
| ColorGradients.ListedKeyNamesStops | app/src/main/java/com/example/renewly/ui/theme/ColorGradients.kt:10-55 | every listed key has the form "#RRGGBB_#RRGGBB", and it spells out both colour stops of its brush, which are opaque |
| SubscriptionsViewModel.WithDocumentIds | app/src/main/java/com/example/renewly/ui/subs/SubscriptionsViewModel.kt:29-31 | each document becomes its record with the document id, all other fields unchanged, in order |
| SubscriptionsViewModel.InsertByDue | app/src/main/java/com/example/renewly/ui/subs/SubscriptionsViewModel.kt:32 | inserting into a list sorted by due date keeps it sorted and adds exactly that record |
| SubscriptionsViewModel.SortByDue | app/src/main/java/com/example/renewly/ui/subs/SubscriptionsViewModel.kt:32 | `sortedBy { nextDueDate }` is sorted by due date and a permutation of its input |
| SubscriptionsViewModel.DueAtInsert | app/src/main/java/com/example/renewly/ui/subs/SubscriptionsViewModel.kt:32 | inserting a record appends it after the equal-key records already there |
| SubscriptionsViewModel.SortByDueStable | app/src/main/java/com/example/renewly/ui/subs/SubscriptionsViewModel.kt:32 | the sort is stable: the records with any one due date keep their input order |
| SubscriptionsViewModel.Published | app/src/main/java/com/example/renewly/ui/subs/SubscriptionsViewModel.kt:29-32 | a null snapshot publishes []; otherwise a list sorted by due date that is a permutation of the documents' records with their ids |
| SubscriptionsViewModel.PublishedSpec | app/src/main/java/com/example/renewly/ui/subs/SubscriptionsViewModel.kt:28-32 | a null snapshot publishes []; otherwise the list is sorted, a permutation of the re-identified documents, of the same length, and stable |
| SubscriptionsViewModel.ViewModel.constructor | app/src/main/java/com/example/renewly/ui/subs/SubscriptionsViewModel.kt:18-26 | the list starts empty, and a listener is attached exactly when a user is signed in |
| SubscriptionsViewModel.ViewModel.OnSnapshot | app/src/main/java/com/example/renewly/ui/subs/SubscriptionsViewModel.kt:28-33 | each snapshot replaces the published list with its transform |
| ProfileViewModel.FetchSucceeded | app/src/main/java/com/example/renewly/ui/auth/ProfileViewModel.kt:110-116 | success: logged in, the user's email (defaulting to "No Email"), the document's name (defaulting to "No Name Set") and its photo URL |
| ProfileViewModel.FetchFailed | app/src/main/java/com/example/renewly/ui/auth/ProfileViewModel.kt:117-121 | failure: logged in, the email set, the name "Could not load name", the photo URL kept |
| ProfileViewModel.FetchSucceededForgetsPast | app/src/main/java/com/example/renewly/ui/auth/ProfileViewModel.kt:113-115 | a success depends only on the user and the document, never yields the signed-out state |
| ProfileViewModel.FailureAfterSuccessKeepsPhoto | app/src/main/java/com/example/renewly/ui/auth/ProfileViewModel.kt:117-121 | a failure after a success keeps that success's photo and email |
| ProfileViewModel.ProfilePictureKey | app/src/main/java/com/example/renewly/ui/auth/ProfileViewModel.kt:58 | the key is "profile_pics/<uid>/<uuid>.jpg": the prefix, the length and the ".jpg" suffix |
| ProfileViewModel.ProfilePictureKeyInjective | app/src/main/java/com/example/renewly/ui/auth/ProfileViewModel.kt:58 | for user ids without "/", equal keys mean the same user and the same UUID |
| ProfileViewModel.ViewModel.constructor | app/src/main/java/com/example/renewly/ui/auth/ProfileViewModel.kt:37 | the state starts signed out as "Not logged in" / "Guest" |
| ProfileViewModel.ViewModel.FetchWithoutUser | app/src/main/java/com/example/renewly/ui/auth/ProfileViewModel.kt:122-124 | a fetch without a signed-in user resets the state to the defaults |
| ProfileViewModel.ViewModel.OnFetchSuccess | app/src/main/java/com/example/renewly/ui/auth/ProfileViewModel.kt:110-116 | the success listener moves the state by FetchSucceeded |
| ProfileViewModel.ViewModel.OnFetchFailure | app/src/main/java/com/example/renewly/ui/auth/ProfileViewModel.kt:117-121 | the failure listener moves the state by FetchFailed |
| ProfileViewModel.ViewModel.UpdateUserName | app/src/main/java/com/example/renewly/ui/auth/ProfileViewModel.kt:86-92 | a name write is issued exactly when a user is signed in and the name is not blank, to that user's document with that name |
| ProfileViewModel.ViewModel.UploadProfilePicture | app/src/main/java/com/example/renewly/ui/auth/ProfileViewModel.kt:47-58 | an upload key is produced exactly when a user is signed in and the image bytes were read; the key is the profile-picture key |
| ProfileViewModel.DialogText | app/src/main/java/com/example/renewly/ui/auth/EditNameDialog.kt:16 | the rename dialog starts empty exactly when the name is the "No Name Set" placeholder (or empty); otherwise it starts with the name |
| ProfileViewModel.UnchangedDialogIsRefused | app/src/main/java/com/example/renewly/ui/auth/EditNameDialog.kt:16 | a user with no stored name gets an empty dialog, and saving it unchanged fails the rename guard |

## Left out

- Firebase Authentication, Firestore and Supabase storage calls are left out. They are network I/O. The signed-in user, the fetched document, the snapshot, the upload result and whether the image bytes could be read are all parameters.
- The Compose UI is left out: layouts, toasts, the image picker, the date picker dialog and navigation. None of it holds logic beyond the modelled state updates.
- The one-second ticker behind `now` in the countdown is left out. `now` is a parameter, so one call models one recomposition.
- SaveNextDue: the Kotlin loop reads the clock again on every iteration. The model uses one fixed `now`, because a clock that moves during the loop is not modelled.
- Calendar arithmetic is left out: month-end clamping, time zones and daylight saving. The model assumes only that one month or year step moves time strictly forward.
- Price is a `Double` in the source. The model keeps it as an opaque `real`. `toDoubleOrNull() ?: 0.0` and `toString()` are passed in (`parsePrice`, `priceText`), because floating-point parsing and printing are not modelled.
- Text.Take: Kotlin's `take(2)` counts UTF-16 code units, while the model counts Unicode scalar values, so an emoji counts as one character here and as two in Kotlin.
- AddEditSubscriptionScreen.FilterIconKey: it is `Take(input, 2)`, so it counts Unicode scalar values too. "🎯🧩" passes the model's icon filter whole, while Kotlin keeps only "🎯".
- SubscriptionListScreen.CardIcon: its glyph text is `Take(iconKey, 2)` and so counts Unicode scalar values rather than UTF-16 code units.
- AddEditSubscriptionScreen.IsPriceChar: `isDigit()` also accepts non-ASCII decimal digits. The model accepts ASCII '0'..'9' only.
- AddEditSubscriptionScreen.ResaveUnchanged: it passes the stored price where the screen would parse the loaded price text, so it assumes `toDoubleOrNull()` gives back what `toString()` printed. Floating-point printing and parsing are not modelled.
- Epoch-millisecond values are unbounded integers. `Long` overflow is far outside real dates and is not modelled.
- Firestore's `toObject` mapping is not modelled. A document is taken to hold an already decoded record, so the `!!` on a null mapping cannot fail here.
- Asynchronous callbacks become separate method calls. The upload callback and the fetch listeners are methods that the caller invokes when the callback runs.
- SubscriptionsViewModel.ViewModel.OnSnapshot requires that a listener was attached. Without a signed-in user no listener exists, so no snapshot arrives.
- `sendPasswordReset` at ui/auth/ProfileViewModel.kt:127-141 is left out. It calls the authentication client and shows toasts, with no state of its own.
- `add`, `update` and `delete` in `SubscriptionsViewModel` are left out. They only forward to the Firestore service.
- `uploadIconToSupabase` is left out. It is storage I/O, and its result is the `uploadedUrl` parameter.
- The name field, cycle chips, date picker, image picker and colour swatches assign their value directly, so they have no methods of their own. The Editor's fields are that state.
- The undeclared record fields use chosen defaults: `startDate` is the clock, and `iconUri` and `colorHex` are null. `Subscription.kt` does not declare these fields.
- AddEditSubscriptionScreen.Editor.Save returns Ignored for a click during an upload, because the button is disabled then (`enabled = !uploading`).
